/**
 * What is read from any Anthropic event stream, a provider's own included, event by event: which events emit a chunk,
 * and what the closing chunk is made of.
 */
module AnthropicFields {
  import opened Chat
  import opened Collections
  import opened AnthropicWire
  import opened AnthropicReader

  // ---- the events that matter -----------------------------------------------------------------

  predicate HasText(ev: WireEvent) {
    ev.name == "content_block_delta" && ev.payload.delta.Some? && ev.payload.delta.value.kind == "text_delta"
  }

  /** A tool block is opened at index `i`. */
  predicate Opens(ev: WireEvent, i: int) {
    && ev.name == "content_block_start" && ev.payload.index == Some(i)
    && ev.payload.block.Some? && ev.payload.block.value.kind == "tool_use"
  }

  /** Argument text for the block at index `i`. */
  predicate Adds(ev: WireEvent, i: int) {
    && ev.name == "content_block_delta" && ev.payload.index == Some(i)
    && ev.payload.delta.Some? && ev.payload.delta.value.kind == "input_json_delta"
  }

  predicate HasStop(ev: WireEvent) {
    ev.name == "message_delta" && ev.payload.delta.Some?
  }

  predicate HasInput(ev: WireEvent) {
    ev.name == "message_start" && ev.payload.inputTokens.Some?
  }

  predicate HasOutput(ev: WireEvent) {
    ev.name == "message_delta" && ev.payload.outputTokens.Some?
  }

  /** The last event with this property stands at `k`; there is none if it is -1. */
  ghost predicate LastWith(events: seq<WireEvent>, has: WireEvent -> bool, k: int) {
    && -1 <= k < |events| && (k >= 0 ==> has(events[k]))
    && forall j :: k < j < |events| ==> !has(events[j])
  }

  // ---- the numbers and the stop reason --------------------------------------------------------

  lemma {:induction false} NumbersNext(st: State, ev: WireEvent)
    ensures var next := Handle(st, ev).st;
            && next.stopReason == (if HasStop(ev) then ev.payload.delta.value.stopReason else st.stopReason)
            && next.inputTokens == (if HasInput(ev) then ev.payload.inputTokens.value else st.inputTokens)
            && next.outputTokens == (if HasOutput(ev) then ev.payload.outputTokens.value else st.outputTokens)
  {
  }

  lemma {:induction false} StopIs(events: seq<WireEvent>, k: int)
    requires !Feed(FRESH, events).failed && LastWith(events, HasStop, k)
    ensures Feed(FRESH, events).st.stopReason == if k < 0 then "" else events[k].payload.delta.value.stopReason
  {
    if events == [] {
    } else {
      var n := |events| - 1;
      NumbersNext(Feed(FRESH, events[..n]).st, events[n]);
      if k < n {
        StopIs(events[..n], k);
      }
    }
  }

  lemma {:induction false} InputIs(events: seq<WireEvent>, k: int)
    requires !Feed(FRESH, events).failed && LastWith(events, HasInput, k)
    ensures Feed(FRESH, events).st.inputTokens == if k < 0 then 0 else events[k].payload.inputTokens.value
  {
    if events == [] {
    } else {
      var n := |events| - 1;
      NumbersNext(Feed(FRESH, events[..n]).st, events[n]);
      if k < n {
        InputIs(events[..n], k);
      }
    }
  }

  lemma {:induction false} OutputIs(events: seq<WireEvent>, k: int)
    requires !Feed(FRESH, events).failed && LastWith(events, HasOutput, k)
    ensures Feed(FRESH, events).st.outputTokens == if k < 0 then 0 else events[k].payload.outputTokens.value
  {
    if events == [] {
    } else {
      var n := |events| - 1;
      NumbersNext(Feed(FRESH, events[..n]).st, events[n]);
      if k < n {
        OutputIs(events[..n], k);
      }
    }
  }

  // ---- tool blocks ----------------------------------------------------------------------------

  /** The argument texts for the block at index `i`, in order. */
  function ArgumentsFor(events: seq<WireEvent>, i: int): seq<string> {
    if events == [] then []
    else (if Adds(events[0], i) then [events[0].payload.delta.value.partialJson] else []) + ArgumentsFor(events[1..], i)
  }

  lemma {:induction false} BlockNext(st: State, ev: WireEvent, i: int)
    ensures var tools, more := st.tools, Handle(st, ev).st.tools;
            && (i in more <==> i in tools || Opens(ev, i))
            && (Opens(ev, i) ==> more[i] == ToolBlock(ev.payload.block.value.id, ev.payload.block.value.name, ""))
            && (i in tools && !Opens(ev, i) ==>
                  more[i] == if Adds(ev, i) then tools[i].(json := tools[i].json + ev.payload.delta.value.partialJson)
                             else tools[i])
  {
  }

  lemma {:induction false} FeedFirst(st: State, events: seq<WireEvent>)
    requires events != [] && !Feed(st, events).failed
    ensures !Handle(st, events[0]).failed && !Feed(Handle(st, events[0]).st, events[1..]).failed
    ensures Feed(st, events).st == Feed(Handle(st, events[0]).st, events[1..]).st
  {
    assert events == [events[0]] + events[1..];
    FeedOne(st, events[0]);
    FeedAppend(st, [events[0]], events[1..]);
  }

  /** A block that is open collects exactly its own argument texts, whatever comes in between. */
  lemma {:induction false} BlockGrows(st: State, events: seq<WireEvent>, i: int)
    requires !Feed(st, events).failed && i in st.tools
    requires forall j :: 0 <= j < |events| ==> !Opens(events[j], i)
    ensures var tools := Feed(st, events).st.tools;
            i in tools && tools[i] == st.tools[i].(json := st.tools[i].json + Concat(ArgumentsFor(events, i)))
    decreases |events|
  {
    if events == [] {
      PlusNothing(st.tools[i].json);
    } else {
      var ev, next := events[0], Handle(st, events[0]).st;
      FeedFirst(st, events);
      BlockNext(st, ev, i);
      BlockGrows(next, events[1..], i);
      var rest := ArgumentsFor(events[1..], i);
      assert [] + rest == rest;
      if Adds(ev, i) {
        assert ([ev.payload.delta.value.partialJson] + rest)[1..] == rest;
        Regroup(st.tools[i].json, ev.payload.delta.value.partialJson, Concat(rest));
      }
    }
  }

  /** The last tool block opened at index `i` was opened by the event at `k`. */
  ghost predicate OpenedAt(events: seq<WireEvent>, k: nat, i: int) {
    k < |events| && Opens(events[k], i) && forall j :: k < j < |events| ==> !Opens(events[j], i)
  }

  lemma {:induction false} BlockIs(events: seq<WireEvent>, k: nat, i: int)
    requires !Feed(FRESH, events).failed && OpenedAt(events, k, i)
    ensures var tools, block := Feed(FRESH, events).st.tools, events[k].payload.block.value;
            i in tools && tools[i] == ToolBlock(block.id, block.name, Concat(ArgumentsFor(events[k + 1..], i)))
  {
    var before, ev, after := events[..k], events[k], events[k + 1..];
    assert events == before + ([ev] + after) && ([ev] + after)[1..] == after;
    FeedAppend(FRESH, before, [ev] + after);
    var st := Feed(FRESH, before).st;
    FeedFirst(st, [ev] + after);
    BlockNext(st, ev, i);
    BlockGrows(Handle(st, ev).st, after, i);
    assert "" + Concat(ArgumentsFor(after, i)) == Concat(ArgumentsFor(after, i));
  }

  lemma {:induction false} HasBlockIff(events: seq<WireEvent>, i: int)
    requires !Feed(FRESH, events).failed
    ensures i in Feed(FRESH, events).st.tools <==> exists k: nat :: k < |events| && Opens(events[k], i)
  {
    if events == [] {
    } else {
      var n := |events| - 1;
      HasBlockIff(events[..n], i);
      BlockNext(Feed(FRESH, events[..n]).st, events[n], i);
      assert forall k: nat :: k < n ==> events[..n][k] == events[k];
    }
  }

  lemma {:induction false} CallsCount(tools: map<int, ToolBlock>, indices: set<int>)
    requires indices <= tools.Keys
    ensures |CallsAt(tools, indices)| == |indices|
    decreases indices
  {
    if indices == {} {
    } else {
      CallsCount(tools, indices - {Any(indices)});
    }
  }

  // ---- the closing chunk ----------------------------------------------------------------------

  lemma {:induction false} FeedNext(events: seq<WireEvent>, ev: WireEvent)
    requires !Feed(FRESH, events).failed
    ensures var before, r := Feed(FRESH, events), Handle(Feed(FRESH, events).st, ev);
            Feed(FRESH, events + [ev]) == Outcome(r.st, before.emitted + r.emitted, r.failed)
  {
    assert (events + [ev])[..|events|] == events;
  }

  lemma {:induction false} StopCloses(st: State, stop: WireEvent)
    requires stop.name == "message_stop"
    ensures Handle(st, stop) == Outcome(st, [Final(st)], false)
  {
  }

  /**
   * The chunk a message_stop emits, if no tool block was opened: the last stop reason, translated, and the last prompt
   * and completion tokens, with their sum.
   */
  lemma {:induction false} ClosesWithStop(events: seq<WireEvent>, stop: WireEvent, k: int, i: int, o: int)
    requires !Feed(FRESH, events).failed && stop.name == "message_stop"
    requires forall j, x :: 0 <= j < |events| ==> !Opens(events[j], x)
    requires LastWith(events, HasStop, k) && LastWith(events, HasInput, i) && LastWith(events, HasOutput, o)
    ensures var r := Feed(FRESH, events + [stop]);
            && !r.failed && |r.emitted| == |Feed(FRESH, events).emitted| + 1
            && var last := r.emitted[|r.emitted| - 1];
               var reason := if k < 0 then "" else events[k].payload.delta.value.stopReason;
               var prompt := if i < 0 then 0 else events[i].payload.inputTokens.value;
               var completion := if o < 0 then 0 else events[o].payload.outputTokens.value;
               && last.delta == "" && last.calls == multiset{}
               && last.usage == Some(Usage(prompt, completion, prompt + completion))
               && (reason == "end_turn" || reason == "stop_sequence" ==> last.finishReason == "stop")
               && (reason == "max_tokens" ==> last.finishReason == "length")
               && (reason == "tool_use" ==> last.finishReason == "tool_calls")
               && (reason == "refusal" ==> last.finishReason == "content_filter")
               && (reason !in {"end_turn", "stop_sequence", "max_tokens", "tool_use", "refusal"} ==>
                     last.finishReason == reason)
  {
    var st := Feed(FRESH, events).st;
    FeedNext(events, stop);
    StopCloses(Feed(FRESH, events).st, stop);
    StopIs(events, k);
    InputIs(events, i);
    OutputIs(events, o);
    forall x
      ensures x !in st.tools
    {
      HasBlockIff(events, x);
    }
    assert st.tools == map[];
  }

  /**
   * With tool blocks it has the calls: one for each index a block was opened at, with the id and the name of the block
   * opened there last and all argument text for that index since, or an empty object if that is nothing.
   */
  lemma {:induction false} ClosesWithCalls(events: seq<WireEvent>, stop: WireEvent, indices: set<int>)
    requires !Feed(FRESH, events).failed && stop.name == "message_stop" && indices != {}
    requires forall x :: x in indices <==> exists k: nat :: k < |events| && Opens(events[k], x)
    ensures var r := Feed(FRESH, events + [stop]);
            && !r.failed && |r.emitted| == |Feed(FRESH, events).emitted| + 1
            && var last := r.emitted[|r.emitted| - 1];
               && last.delta == "" && last.finishReason == "tool_calls" && |last.calls| == |indices|
               && forall k: nat, x :: OpenedAt(events, k, x) ==>
                    var arguments := Concat(ArgumentsFor(events[k + 1..], x));
                    ToolCall(events[k].payload.block.value.id, events[k].payload.block.value.name,
                             if arguments == "" then "{}" else arguments) in last.calls
  {
    var tools := Feed(FRESH, events).st.tools;
    FeedNext(events, stop);
    StopCloses(Feed(FRESH, events).st, stop);
    forall x
      ensures x in tools <==> x in indices
    {
      HasBlockIff(events, x);
    }
    assert tools.Keys == indices;
    CallsCount(tools, indices);
    forall k: nat, x | OpenedAt(events, k, x)
      ensures var arguments := Concat(ArgumentsFor(events[k + 1..], x));
              ToolCall(events[k].payload.block.value.id, events[k].payload.block.value.name,
                       if arguments == "" then "{}" else arguments) in CallsOf(tools)
    {
      BlockIs(events, k, x);
      CallsRemove(tools, tools.Keys, x);
    }
  }

  // ---- every chunk ----------------------------------------------------------------------------

  /** These events emit a chunk, if reading them is no error. */
  predicate Emits(ev: WireEvent) {
    HasText(ev) || ev.name == "message_stop" || ev.name == "error"
  }

  /** What the chunk of an event says: a text is that text, and an error that the stream broke off. */
  ghost predicate Says(seen: Emission, ev: WireEvent) {
    && (HasText(ev) ==> seen == Emission(ev.payload.delta.value.text, "", None, multiset{}))
    && (ev.name == "error" ==> seen == Emission("", "error", None, multiset{}))
    && (ev.name == "message_stop" ==> seen.delta == "" && seen.usage.Some?)
  }

  lemma {:induction false} EmissionNext(st: State, ev: WireEvent)
    requires !Handle(st, ev).failed
    ensures var emitted := Handle(st, ev).emitted;
            if Emits(ev) then |emitted| == 1 && Says(emitted[0], ev) else emitted == []
  {
  }

  /** The chunks emitted are those of the events at these places. */
  ghost predicate Chunks(events: seq<WireEvent>, at: seq<nat>, emitted: seq<Emission>) {
    |emitted| == |at| && forall i :: 0 <= i < |at| ==> at[i] < |events| && Says(emitted[i], events[at[i]])
  }

  lemma {:induction false} ChunksNext(events: seq<WireEvent>, ev: WireEvent, at: seq<nat>, emitted: seq<Emission>,
                                      seen: Emission)
    requires Chunks(events, at, emitted)
    ensures Chunks(events + [ev], at, emitted)
    ensures Says(seen, ev) ==> Chunks(events + [ev], at + [|events|], emitted + [seen])
  {
  }

  /** What any stream that is no error emits: a chunk for each text, message_stop and error event, in order. */
  lemma {:induction false} EmissionsAre(events: seq<WireEvent>) returns (at: seq<nat>)
    requires !Feed(FRESH, events).failed
    ensures Ascends(at) && Chunks(events, at, Feed(FRESH, events).emitted)
    ensures forall k: nat :: k in at <==> k < |events| && Emits(events[k])
  {
    if events == [] {
      at := [];
    } else {
      var n, ev := |events| - 1, events[|events| - 1];
      var before := Feed(FRESH, events[..n]);
      var r := Handle(before.st, ev);
      assert events[..n] + [ev] == events;
      at := EmissionsAre(events[..n]);
      FeedNext(events[..n], ev);
      EmissionNext(before.st, ev);
      if Emits(ev) {
        ChunksNext(events[..n], ev, at, before.emitted, r.emitted[0]);
        assert r.emitted == [r.emitted[0]];
        AscendsNext(at, n);
        at := at + [n];
      } else {
        ChunksNext(events[..n], ev, at, before.emitted, Seen(ERROR_DELTA));
        PlusNothing(before.emitted);
      }
    }
  }
}
