/**
 * Reading an Anthropic event stream back into canonical chunks.
 *
 * Go visits the accumulated tool blocks in an unspecified order, so what a chunk carries is described up to the
 * order of its tool calls: an `Emission` holds them as a multiset.
 */
module AnthropicReader {
  import opened Chat
  import opened Collections
  import opened EventStream
  import opened AnthropicWire

  /** A tool_use block being streamed: its header and the argument text so far. */
  datatype ToolBlock = ToolBlock(id: string, name: string, json: string)

  datatype State = State(
    delivered: bool,
    inputTokens: int,
    outputTokens: int,
    stopReason: string,
    tools: map<int, ToolBlock>)

  const FRESH := State(false, 0, 0, "", map[])

  datatype Emission = Emission(
    delta: string,
    finishReason: string,
    usage: Option<Usage>,
    calls: multiset<ToolCall>)

  function Seen(d: StreamDelta): Emission {
    Emission(d.delta, d.finishReason, d.usage, multiset(d.toolCalls))
  }

  function SeenAll(deltas: seq<StreamDelta>): seq<Emission> {
    if deltas == [] then [] else SeenAll(deltas[..|deltas| - 1]) + [Seen(deltas[|deltas| - 1])]
  }

  lemma {:induction false} SeenNext(deltas: seq<StreamDelta>, d: StreamDelta)
    ensures SeenAll(deltas + [d]) == SeenAll(deltas) + [Seen(d)]
  {
    assert (deltas + [d])[..|deltas|] == deltas;
  }

  function CallOf(b: ToolBlock): ToolCall {
    WithArguments(ToolCall(b.id, b.name, b.json))
  }

  ghost function CallsAt(tools: map<int, ToolBlock>, indices: set<int>): multiset<ToolCall>
    requires indices <= tools.Keys
  {
    if indices == {} then multiset{}
    else var k := Any(indices); multiset{CallOf(tools[k])} + CallsAt(tools, indices - {k})
  }

  ghost function CallsOf(tools: map<int, ToolBlock>): multiset<ToolCall> {
    CallsAt(tools, tools.Keys)
  }

  /** The multiset does not depend on which block is taken first. */
  lemma {:induction false} CallsRemove(tools: map<int, ToolBlock>, indices: set<int>, k: int)
    requires indices <= tools.Keys && k in indices
    ensures CallsAt(tools, indices) == multiset{CallOf(tools[k])} + CallsAt(tools, indices - {k})
    decreases indices
  {
    var j := Any(indices);
    if j != k {
      CallsRemove(tools, indices - {j}, k);
      CallsRemove(tools, indices - {k}, j);
      assert indices - {j} - {k} == indices - {k} - {j};
    }
  }

  lemma {:induction false} CallsNext(tools: map<int, ToolBlock>, indices: set<int>, k: int, calls: seq<ToolCall>)
    requires indices <= tools.Keys && k in indices
    ensures multiset(calls + [CallOf(tools[k])]) + CallsAt(tools, indices - {k}) ==
            multiset(calls) + CallsAt(tools, indices)
  {
    CallsRemove(tools, indices, k);
  }

  datatype ReadError = StreamError | ReadFailed | NoContent

  /** What reading has led to: the state, the chunks emitted, and whether an error was returned. */
  datatype Outcome = Outcome(st: State, emitted: seq<Emission>, failed: bool)

  ghost function Final(st: State): Emission {
    Emission(
      "",
      if st.tools == map[] then FinishReason(st.stopReason) else "tool_calls",
      Some(Usage(st.inputTokens, st.outputTokens, st.inputTokens + st.outputTokens)),
      CallsOf(st.tools))
  }

  function TextSeen(text: string): Emission {
    Emission(text, "", None, multiset{})
  }

  /** One event. */
  ghost function Handle(st: State, ev: WireEvent): Outcome {
    var p := ev.payload;
    if ev.name == "message_start" then
      Outcome(if p.inputTokens.Some? then st.(inputTokens := p.inputTokens.value) else st, [], false)
    else if ev.name == "content_block_start" then
      Outcome(
        if p.block.Some? && p.block.value.kind == "tool_use" && p.index.Some?
        then st.(tools := st.tools[p.index.value := ToolBlock(p.block.value.id, p.block.value.name, "")],
                 delivered := true)
        else st, [], false)
    else if ev.name == "content_block_delta" && p.delta.Some? && p.delta.value.kind == "text_delta" then
      Outcome(st.(delivered := true), [TextSeen(p.delta.value.text)], false)
    else if ev.name == "content_block_delta" && p.delta.Some? && p.delta.value.kind == "input_json_delta" then
      Outcome(
        if p.index.Some? && p.index.value in st.tools
        then var b := st.tools[p.index.value];
             st.(tools := st.tools[p.index.value := b.(json := b.json + p.delta.value.partialJson)])
        else st, [], false)
    else if ev.name == "message_delta" then
      var named := if p.delta.Some? then st.(stopReason := p.delta.value.stopReason) else st;
      Outcome(if p.outputTokens.Some? then named.(outputTokens := p.outputTokens.value) else named, [], false)
    else if ev.name == "message_stop" then Outcome(st, [Final(st)], false)
    else if ev.name == "error" then
      if st.delivered then Outcome(st, [Seen(ERROR_DELTA)], false) else Outcome(st, [], true)
    else Outcome(st, [], false)
  }

  /** A run of events, up to the first that returns an error. */
  ghost function Feed(st: State, events: seq<WireEvent>): Outcome
    decreases |events|
  {
    if events == [] then Outcome(st, [], false)
    else
      var before := Feed(st, events[..|events| - 1]);
      if before.failed then before
      else
        var last := Handle(before.st, events[|events| - 1]);
        Outcome(last.st, before.emitted + last.emitted, last.failed)
  }

  lemma {:induction false} FeedAppend(st: State, a: seq<WireEvent>, b: seq<WireEvent>)
    ensures Feed(st, a + b) ==
            var first := Feed(st, a);
            if first.failed then first
            else
              var second := Feed(first.st, b);
              Outcome(second.st, first.emitted + second.emitted, second.failed)
    decreases |b|
  {
    if b == [] {
      assert a + b == a;
      assert Feed(st, a).emitted + [] == Feed(st, a).emitted;
    } else {
      var n := |b| - 1;
      assert (a + b)[..|a + b| - 1] == a + b[..n];
      FeedAppend(st, a, b[..n]);
    }
  }

  lemma {:induction false} FeedOne(st: State, ev: WireEvent)
    ensures Feed(st, [ev]) == Handle(st, ev)
  {
    assert [ev][..0] == [];
    assert [] + Handle(st, ev).emitted == Handle(st, ev).emitted;
  }

  lemma {:induction false} FailureEnds(st: State, ev: WireEvent, rest: seq<WireEvent>)
    requires Handle(st, ev).failed
    ensures Feed(st, [ev] + rest) == Handle(st, ev)
  {
    FeedOne(st, ev);
    FeedAppend(st, [ev], rest);
  }

  /** The decodable frames; malformed payloads are passed over. */
  function Decoded(frames: seq<RawFrame>, decode: string -> Option<Payload>): seq<WireEvent> {
    if frames == [] then []
    else
      var f := frames[|frames| - 1];
      var p := decode(f.payload);
      Decoded(frames[..|frames| - 1], decode) + if p.Some? then [WireEvent(f.name, p.value)] else []
  }

  lemma {:induction false} DecodedAppend(a: seq<RawFrame>, b: seq<RawFrame>, decode: string -> Option<Payload>)
    ensures Decoded(a + b, decode) == Decoded(a, decode) + Decoded(b, decode)
    decreases |b|
  {
    if b == [] {
      assert a + b == a;
    } else {
      assert (a + b)[..|a + b| - 1] == a + b[..|b| - 1];
      DecodedAppend(a, b[..|b| - 1], decode);
    }
  }

  datatype Reading = Reading(emitted: seq<Emission>, error: Option<ReadError>)

  /**
   * Reading a whole stream, given as the lines the scanner produced and whether it then failed: the frames closed by
   * a blank line are handled; after a clean end the trailing frame is too, and a stream without content is an error.
   */
  ghost function Consume(lines: seq<string>, scanFailed: bool, decode: string -> Option<Payload>): Reading {
    var g := Gather(NOTHING, lines);
    var closed := Feed(FRESH, Decoded(g.frames, decode));
    if closed.failed then Reading(closed.emitted, Some(StreamError))
    else if scanFailed then Reading(closed.emitted, Some(ReadFailed))
    else
      var all := Feed(FRESH, Decoded(g.frames + Flush(g.rest), decode));
      if all.failed then Reading(all.emitted, Some(StreamError))
      else Reading(all.emitted, if all.st.delivered then None else Some(NoContent))
  }

  lemma {:induction false} GatherAppend(p: Pending, a: seq<string>, b: seq<string>)
    ensures var first := Gather(p, a);
            Gather(p, a + b) ==
            Gathered(first.frames + Gather(first.rest, b).frames, Gather(first.rest, b).rest)
    decreases |a|
  {
    if a == [] {
      assert a + b == b;
      assert [] + Gather(p, b).frames == Gather(p, b).frames;
    } else {
      assert (a + b)[1..] == a[1..] + b;
      GatherAppend(if a[0] == "" then NOTHING else TakeField(p, a[0]), a[1..], b);
    }
  }

  lemma {:induction false} GatherNext(lines: seq<string>, i: nat)
    requires i < |lines|
    ensures var g := Gather(NOTHING, lines[..i]);
            Gather(NOTHING, lines[..i + 1]) ==
            if lines[i] == "" then Gathered(g.frames + Flush(g.rest), NOTHING)
            else Gathered(g.frames, TakeField(g.rest, lines[i]))
  {
    var g := Gather(NOTHING, lines[..i]);
    assert lines[..i + 1] == lines[..i] + [lines[i]];
    GatherAppend(NOTHING, lines[..i], [lines[i]]);
    assert [lines[i]][1..] == [];
    assert Flush(g.rest) + [] == Flush(g.rest) && g.frames + [] == g.frames;
  }

  /** An error ends the reading for good: the lines after it change nothing. */
  lemma {:induction false} FailureStays(lines: seq<string>, i: nat, decode: string -> Option<Payload>)
    requires i <= |lines|
    requires Feed(FRESH, Decoded(Gather(NOTHING, lines[..i]).frames, decode)).failed
    ensures Feed(FRESH, Decoded(Gather(NOTHING, lines).frames, decode)) ==
            Feed(FRESH, Decoded(Gather(NOTHING, lines[..i]).frames, decode))
  {
    var g := Gather(NOTHING, lines[..i]);
    assert lines == lines[..i] + lines[i..];
    GatherAppend(NOTHING, lines[..i], lines[i..]);
    var more := Gather(g.rest, lines[i..]).frames;
    DecodedAppend(g.frames, more, decode);
    FeedAppend(FRESH, Decoded(g.frames, decode), Decoded(more, decode));
  }

  // ---- the stream state -----------------------------------------------------------------------

  class StreamState {
    var delivered: bool
    var inputTokens: int
    var outputTokens: int
    var stopReason: string
    var toolBlocks: map<int, ToolBlock>
    var emitted: seq<StreamDelta>

    function View(): State
      reads this
    {
      State(delivered, inputTokens, outputTokens, stopReason, toolBlocks)
    }

    constructor ()
      ensures View() == FRESH && emitted == []
    {
      delivered, inputTokens, outputTokens, stopReason, toolBlocks, emitted := false, 0, 0, "", map[], [];
    }

    /** The caller's callback, which accepts every chunk. */
    method Emit(d: StreamDelta)
      modifies this`emitted
      ensures SeenAll(emitted) == old(SeenAll(emitted)) + [Seen(d)]
    {
      SeenNext(emitted, d);
      emitted := emitted + [d];
    }

    /** The accumulated calls, in whatever order the map is visited. */
    method ToolCalls() returns (calls: seq<ToolCall>)
      ensures multiset(calls) == CallsOf(toolBlocks)
      ensures |calls| == |toolBlocks|
    {
      calls := [];
      var rest := toolBlocks.Keys;
      while rest != {}
        invariant rest <= toolBlocks.Keys
        invariant multiset(calls) + CallsAt(toolBlocks, rest) == CallsOf(toolBlocks)
        invariant |calls| + |rest| == |toolBlocks|
        decreases rest
      {
        var k := Pick(rest);
        CallsNext(toolBlocks, rest, k, calls);
        var b := toolBlocks[k];
        var raw := b.json;
        if raw == "" {
          raw := "{}";
        }
        calls := calls + [ToolCall(b.id, b.name, raw)];
        rest := rest - {k};
      }
    }

    method HandleMessageStart(p: Payload)
      modifies this`inputTokens
      ensures View() == Handle(old(View()), WireEvent("message_start", p)).st
    {
      if p.inputTokens.Some? {
        inputTokens := p.inputTokens.value;
      }
    }

    method HandleBlockStart(p: Payload)
      modifies this`toolBlocks, this`delivered
      ensures View() == Handle(old(View()), WireEvent("content_block_start", p)).st
    {
      if p.block.None? || p.block.value.kind != "tool_use" || p.index.None? {
        return;
      }
      toolBlocks := toolBlocks[p.index.value := ToolBlock(p.block.value.id, p.block.value.name, "")];
      delivered := true;
    }

    method HandleBlockDelta(p: Payload)
      modifies this
      ensures View() == Handle(old(View()), WireEvent("content_block_delta", p)).st
      ensures SeenAll(emitted) ==
              old(SeenAll(emitted)) + Handle(old(View()), WireEvent("content_block_delta", p)).emitted
    {
      if p.delta.None? {
        return;
      }
      if p.delta.value.kind == "text_delta" {
        delivered := true;
        Emit(TextDelta(p.delta.value.text));
      } else if p.delta.value.kind == "input_json_delta" {
        if p.index.None? || p.index.value !in toolBlocks {
          return;
        }
        var b := toolBlocks[p.index.value];
        toolBlocks := toolBlocks[p.index.value := b.(json := b.json + p.delta.value.partialJson)];
      }
    }

    method HandleMessageDelta(p: Payload)
      modifies this`stopReason, this`outputTokens
      ensures View() == Handle(old(View()), WireEvent("message_delta", p)).st
    {
      if p.delta.Some? {
        stopReason := p.delta.value.stopReason;
      }
      if p.outputTokens.Some? {
        outputTokens := p.outputTokens.value;
      }
    }

    method HandleMessageStop()
      modifies this`emitted
      ensures SeenAll(emitted) == old(SeenAll(emitted)) + [Final(View())]
    {
      var usage := Some(Usage(inputTokens, outputTokens, inputTokens + outputTokens));
      if |toolBlocks| > 0 {
        var calls := ToolCalls();
        Emit(StreamDelta("", "tool_calls", usage, calls, ""));
      } else {
        assert toolBlocks == map[];
        Emit(StreamDelta("", FinishReason(stopReason), usage, [], ""));
      }
    }

    method HandleError() returns (failed: bool)
      modifies this`emitted
      ensures failed == !delivered
      ensures SeenAll(emitted) == old(SeenAll(emitted)) + if delivered then [Seen(ERROR_DELTA)] else []
    {
      if delivered {
        Emit(ERROR_DELTA);
        return false;
      }
      return true;
    }

    method HandleEvent(name: string, p: Payload) returns (failed: bool)
      modifies this
      ensures View() == Handle(old(View()), WireEvent(name, p)).st
      ensures SeenAll(emitted) == old(SeenAll(emitted)) + Handle(old(View()), WireEvent(name, p)).emitted
      ensures failed == Handle(old(View()), WireEvent(name, p)).failed
    {
      failed := false;
      match name {
        case "message_start" => HandleMessageStart(p);
        case "content_block_start" => HandleBlockStart(p);
        case "content_block_delta" => HandleBlockDelta(p);
        case "message_delta" => HandleMessageDelta(p);
        case "message_stop" => HandleMessageStop();
        case "error" => failed := HandleError();
        case _ =>
      }
    }

    /** Handles the pending frame, if there is one and it decodes. */
    method FlushFrame(name: string, data: seq<string>, decode: string -> Option<Payload>) returns (failed: bool)
      modifies this
      ensures var result := Feed(old(View()), Decoded(Flush(Pending(name, data)), decode));
              && View() == result.st && failed == result.failed
              && SeenAll(emitted) == old(SeenAll(emitted)) + result.emitted
    {
      if |data| == 0 {
        return false;
      }
      var payload := Join(data);
      var p := decode(payload);
      assert [RawFrame(name, payload)][..0] == [];
      if p.None? {
        return false;
      }
      assert Decoded(Flush(Pending(name, data)), decode) == [WireEvent(name, p.value)];
      FeedOne(View(), WireEvent(name, p.value));
      failed := HandleEvent(name, p.value);
    }

    /** The scan loop: lines are gathered into a frame, and each blank line handles it at once. */
    method ConsumeStream(lines: seq<string>, scanFailed: bool, decode: string -> Option<Payload>)
      returns (error: Option<ReadError>)
      requires View() == FRESH && emitted == []
      modifies this
      ensures Reading(SeenAll(emitted), error) == Consume(lines, scanFailed, decode)
    {
      var eventName, dataLines := "", [];
      for i := 0 to |lines|
        invariant Pending(eventName, dataLines) == Gather(NOTHING, lines[..i]).rest
        invariant Outcome(View(), SeenAll(emitted), false) ==
                  Feed(FRESH, Decoded(Gather(NOTHING, lines[..i]).frames, decode))
      {
        var line := lines[i];
        ghost var g := Gather(NOTHING, lines[..i]);
        GatherNext(lines, i);
        if line != "" {
          if "event:" <= line {
            eventName := Trim(line[6..]);
          } else if "data:" <= line {
            dataLines := dataLines + [Trim(line[5..])];
          }
          continue;
        }
        DecodedAppend(g.frames, Flush(g.rest), decode);
        FeedAppend(FRESH, Decoded(g.frames, decode), Decoded(Flush(g.rest), decode));
        var failed := FlushFrame(eventName, dataLines, decode);
        if failed {
          FailureStays(lines, i + 1, decode);
          return Some(StreamError);
        }
        eventName, dataLines := "", [];
      }
      assert lines[..|lines|] == lines;
      if scanFailed {
        return Some(ReadFailed);
      }
      ghost var g := Gather(NOTHING, lines);
      DecodedAppend(g.frames, Flush(g.rest), decode);
      FeedAppend(FRESH, Decoded(g.frames, decode), Decoded(Flush(g.rest), decode));
      var failed := FlushFrame(eventName, dataLines, decode);
      if failed {
        return Some(StreamError);
      }
      return if delivered then None else Some(NoContent);
    }
  }
}
