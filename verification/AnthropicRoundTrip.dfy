/**
 * The printer and the parser of Anthropic event streams undo each other: chunks printed by the writer come back from
 * the reader, event by event and through the text framing.
 */
module AnthropicRoundTrip {
  import opened Chat
  import opened Collections
  import opened Capture
  import opened EventStream
  import opened AnthropicWire
  import Writer = AnthropicWriter
  import Grammar = AnthropicGrammar
  import opened AnthropicReader

  function WireAll(events: seq<Event>): seq<WireEvent> {
    if events == [] then [] else WireAll(events[..|events| - 1]) + [OnWire(events[|events| - 1])]
  }

  ghost function Read(st: State, events: seq<Event>): Outcome {
    Feed(st, WireAll(events))
  }

  function TextsSeen(texts: seq<string>): seq<Emission> {
    if texts == [] then [] else TextsSeen(texts[..|texts| - 1]) + [TextSeen(texts[|texts| - 1])]
  }

  // ---- reading the pieces ---------------------------------------------------------------------

  lemma {:induction false} WireAllAppend(a: seq<Event>, b: seq<Event>)
    ensures WireAll(a + b) == WireAll(a) + WireAll(b)
    decreases |b|
  {
    if b == [] {
      assert a + b == a;
    } else {
      assert (a + b)[..|a + b| - 1] == a + b[..|b| - 1];
      WireAllAppend(a, b[..|b| - 1]);
    }
  }

  lemma {:induction false} WireOne(e: Event)
    ensures WireAll([e]) == [OnWire(e)]
  {
    assert [e][..0] == [] && [] + [OnWire(e)] == [OnWire(e)];
  }

  lemma {:induction false} ReadAppend(st: State, a: seq<Event>, b: seq<Event>)
    requires !Read(st, a).failed
    ensures var first := Read(st, a);
            var second := Read(first.st, b);
            Read(st, a + b) == Outcome(second.st, first.emitted + second.emitted, second.failed)
  {
    WireAllAppend(a, b);
    FeedAppend(st, WireAll(a), WireAll(b));
  }

  /** Two pieces read one after the other, neither failing. */
  lemma {:induction false} ReadBoth(st: State, a: seq<Event>, mid: State, seenA: seq<Emission>,
                                    b: seq<Event>, end: State, seenB: seq<Emission>)
    requires Read(st, a) == Outcome(mid, seenA, false) && Read(mid, b) == Outcome(end, seenB, false)
    ensures Read(st, a + b) == Outcome(end, seenA + seenB, false)
  {
    ReadAppend(st, a, b);
  }

  lemma {:induction false} ReadOne(st: State, e: Event)
    ensures Read(st, [e]) == Handle(st, OnWire(e))
  {
    assert [e][..0] == [];
    assert WireAll([e]) == [OnWire(e)];
    FeedOne(st, OnWire(e));
  }

  lemma {:induction false} ReadNone(st: State)
    ensures Read(st, []) == Outcome(st, [], false)
  {
    assert WireAll([]) == [];
  }

  /** Closing a block is no news to a reader. */
  lemma {:induction false} ReadThenStop(st: State, events: seq<Event>, mid: State, seen: seq<Emission>, index: nat)
    requires Read(st, events) == Outcome(mid, seen, false)
    ensures Read(st, events + [BlockStop(index)]) == Outcome(mid, seen, false)
  {
    ReadOne(mid, BlockStop(index));
    ReadBoth(st, events, mid, seen, [BlockStop(index)], mid, []);
    assert seen + [] == seen;
  }

  lemma {:induction false} ReadOpening(w: Writer.State, st: State, usage: Option<Usage>)
    ensures Read(st, Writer.Opening(w, usage)) ==
            Outcome(if w.started then st else st.(inputTokens := Writer.Prompt(usage)), [], false)
  {
    if w.started {
      ReadNone(st);
    } else {
      ReadOne(st, MessageStart(Writer.Prompt(usage)));
    }
  }

  /** Printed text is read as that text. */
  lemma {:induction false} ReadText(w: Writer.State, st: State, text: string)
    ensures Read(st, Writer.TextEvents(w, text)) ==
            if text == "" then Outcome(st, [], false) else Outcome(st.(delivered := true), [TextSeen(text)], false)
  {
    var fragment := TextFragment(w.index, text);
    ReadOne(st, fragment);
    if text == "" {
      ReadNone(st);
    } else if w.textOpen {
      assert [] + [fragment] == [fragment];
    } else {
      ReadOne(st, TextStart(w.index));
      ReadBoth(st, [TextStart(w.index)], st, [], [fragment], st.(delivered := true), [TextSeen(text)]);
      assert [] + [TextSeen(text)] == [TextSeen(text)];
    }
  }

  /** The blocks a reader holds after the tool blocks of `calls`. */
  function AddBlocks(tools: map<int, ToolBlock>, index: nat, calls: seq<ToolCall>): map<int, ToolBlock>
    decreases |calls|
  {
    if calls == [] then tools
    else AddBlocks(tools[index := ToolBlock(calls[0].id, calls[0].name, calls[0].arguments)], index + 1, calls[1..])
  }

  function WithBlock(st: State, index: nat, b: ToolBlock): State {
    st.(tools := st.tools[index := b], delivered := true)
  }

  lemma {:induction false} ReadArguments(st: State, index: nat, id: string, name: string, json: string)
    ensures Read(WithBlock(st, index, ToolBlock(id, name, "")), [ArgumentsFragment(index, json)]) ==
            Outcome(WithBlock(st, index, ToolBlock(id, name, json)), [], false)
  {
    var open := WithBlock(st, index, ToolBlock(id, name, ""));
    ReadOne(open, ArgumentsFragment(index, json));
    assert "" + json == json;
    assert open.tools[index := ToolBlock(id, name, json)] == st.tools[index := ToolBlock(id, name, json)];
  }

  lemma {:induction false} ReadToolBlock(st: State, index: nat, call: ToolCall)
    ensures Read(st, Writer.ToolBlock(index, call)) ==
            Outcome(WithBlock(st, index, ToolBlock(call.id, call.name, call.arguments)), [], false)
  {
    var open := WithBlock(st, index, ToolBlock(call.id, call.name, ""));
    var full := WithBlock(st, index, ToolBlock(call.id, call.name, call.arguments));
    var a, b, c := ToolStart(index, call.id, call.name), ArgumentsFragment(index, call.arguments), BlockStop(index);
    ReadOne(st, a);
    ReadArguments(st, index, call.id, call.name, call.arguments);
    ReadBoth(st, [a], open, [], [b], full, []);
    ReadThenStop(st, [a] + [b], full, [], index);
    assert [a] + [b] + [c] == Writer.ToolBlock(index, call);
  }

  lemma {:induction false} ReadToolBlocks(st: State, index: nat, calls: seq<ToolCall>)
    ensures Read(st, Writer.ToolBlocks(index, calls)) ==
            Outcome(if calls == [] then st
                    else st.(tools := AddBlocks(st.tools, index, calls), delivered := true), [], false)
    decreases |calls|
  {
    if calls == [] {
      ReadNone(st);
    } else {
      ReadToolBlock(st, index, calls[0]);
      var next := Read(st, Writer.ToolBlock(index, calls[0])).st;
      ReadToolBlocks(next, index + 1, calls[1..]);
      ReadAppend(st, Writer.ToolBlock(index, calls[0]), Writer.ToolBlocks(index + 1, calls[1..]));
    }
  }

  lemma {:induction false} CallsAtSame(tools: map<int, ToolBlock>, tools': map<int, ToolBlock>, indices: set<int>)
    requires indices <= tools.Keys && indices <= tools'.Keys
    requires forall k :: k in indices ==> tools[k] == tools'[k]
    ensures CallsAt(tools, indices) == CallsAt(tools', indices)
    decreases indices
  {
    if indices == {} {
    } else {
      CallsAtSame(tools, tools', indices - {Any(indices)});
    }
  }

  lemma {:induction false} CallsInsert(tools: map<int, ToolBlock>, k: int, b: ToolBlock)
    requires k !in tools
    ensures CallsOf(tools[k := b]) == CallsOf(tools) + multiset{CallOf(b)}
  {
    var more := tools[k := b];
    CallsRemove(more, more.Keys, k);
    assert more.Keys - {k} == tools.Keys;
    CallsAtSame(more, tools, tools.Keys);
  }

  lemma {:induction false} AddBlocksKeys(tools: map<int, ToolBlock>, index: nat, calls: seq<ToolCall>)
    ensures tools.Keys <= AddBlocks(tools, index, calls).Keys
    ensures calls != [] ==> index in AddBlocks(tools, index, calls)
    decreases |calls|
  {
    if calls == [] {
    } else {
      AddBlocksKeys(tools[index := ToolBlock(calls[0].id, calls[0].name, calls[0].arguments)], index + 1, calls[1..]);
    }
  }

  /** Blocks at fresh indices never overwrite one another: the calls are all there, each once. */
  lemma {:induction false} AddBlocksCalls(tools: map<int, ToolBlock>, index: nat, calls: seq<ToolCall>)
    requires forall k :: k in tools ==> k < index
    ensures CallsOf(AddBlocks(tools, index, calls)) == CallsOf(tools) + multiset(AllWithArguments(calls))
    decreases |calls|
  {
    if calls == [] {
      assert AllWithArguments(calls) == [];
    } else {
      var b := ToolBlock(calls[0].id, calls[0].name, calls[0].arguments);
      var more := tools[index := b];
      CallsInsert(tools, index, b);
      AddBlocksCalls(more, index + 1, calls[1..]);
      calc {
        CallsOf(AddBlocks(tools, index, calls));
        CallsOf(AddBlocks(more, index + 1, calls[1..]));
        CallsOf(more) + multiset(AllWithArguments(calls[1..]));
        CallsOf(tools) + multiset{WithArguments(calls[0])} + multiset(AllWithArguments(calls[1..]));
        CallsOf(tools) + multiset(AllWithArguments(calls));
      }
    }
  }

  // ---- the whole run --------------------------------------------------------------------------

  /** The calls of the chunks with a finish reason; the others print none. */
  function CallsSoFar(deltas: seq<StreamDelta>): seq<ToolCall> {
    if deltas == [] then []
    else
      var d := deltas[|deltas| - 1];
      CallsSoFar(deltas[..|deltas| - 1]) + if d.finishReason == "" then [] else d.toolCalls
  }

  predicate HasContent(deltas: seq<StreamDelta>) {
    Texts(deltas) != [] || CallsSoFar(deltas) != []
  }

  function FinalChunk(finish: string, prompt: int, completion: int, calls: seq<ToolCall>): Emission {
    Emission("", finish, Some(Usage(prompt, completion, prompt + completion)), multiset(AllWithArguments(calls)))
  }

  /** What the last chunk of a run, which has a finish reason, is read as: with all calls so far. */
  function ClosingChunk(deltas: seq<StreamDelta>): Emission
    requires deltas != []
  {
    var last, calls := deltas[|deltas| - 1], CallsSoFar(deltas);
    FinalChunk(if calls != [] then "tool_calls" else if Portable(last.finishReason) then last.finishReason else "stop",
               Writer.Prompt(deltas[0].usage), Writer.Completion(last.usage), calls)
  }

  /** What reading any printed run gives back: each non-empty text, and a closing chunk for each finish reason. */
  function Heard(deltas: seq<StreamDelta>): seq<Emission> {
    if deltas == [] then []
    else
      var d := deltas[|deltas| - 1];
      Heard(deltas[..|deltas| - 1])
      + ((if d.delta == "" then [] else [TextSeen(d.delta)])
         + (if d.finishReason == "" then [] else [ClosingChunk(deltas)]))
  }

  /** The state in which message_stop is met, after the tool blocks and the message_delta. */
  function Closing(st: State, index: nat, calls: seq<ToolCall>, finish: string, completion: int): State {
    State(st.delivered || calls != [], st.inputTokens, completion, StopReason(finish),
          AddBlocks(st.tools, index, calls))
  }

  /** The printed tail is read as one closing chunk. */
  lemma {:induction false} ReadTail(st: State, index: nat, calls: seq<ToolCall>, finish: string, usage: Option<Usage>)
    ensures var closing := Closing(st, index, calls, finish, Writer.Completion(usage));
            Read(st, Writer.Tail(index, calls, finish, usage)) == Outcome(closing, [Final(closing)], false)
  {
    var completion := Writer.Completion(usage);
    var blocks, delta := Writer.ToolBlocks(index, calls), MessageDelta(StopReason(finish), completion);
    ReadToolBlocks(st, index, calls);
    var filled := Read(st, blocks).st;
    var closing := Closing(st, index, calls, finish, completion);
    ReadOne(filled, delta);
    ReadOne(closing, MessageStop);
    ReadBoth(filled, [delta], closing, [], [MessageStop], closing, [Final(closing)]);
    assert [delta] + [MessageStop] == [delta, MessageStop];
    ReadBoth(st, blocks, filled, [], [delta, MessageStop], closing, [Final(closing)]);
  }

  /** What a chunk prints is read as its text and, with a finish reason, a closing chunk. */
  lemma {:induction false} ReadBody(w: Writer.State, st: State, d: StreamDelta)
    ensures var begun := if w.started then st
                         else st.(inputTokens := Writer.Prompt(Writer.Latest(d.usage, w)));
            Read(st, Writer.Body(w, d)) ==
            if d.delta == "" then Outcome(begun, [], false)
            else Outcome(begun.(delivered := true), [TextSeen(d.delta)], false)
  {
    var usage := Writer.Latest(d.usage, w);
    ReadOpening(w, st, usage);
    var begun := Read(st, Writer.Opening(w, usage)).st;
    ReadText(w, begun, d.delta);
    var told := Read(begun, Writer.TextEvents(w, d.delta));
    ReadBoth(st, Writer.Opening(w, usage), begun, [], Writer.TextEvents(w, d.delta), told.st, told.emitted);
    assert [] + told.emitted == told.emitted;
  }

  lemma {:induction false} ReadClosed(w: Writer.State, st: State, d: StreamDelta)
    ensures var body := Writer.Body(w, d);
            Read(st, body + Writer.Close(w.textOpen || d.delta != "", w.index)) == Read(st, body)
  {
    ReadBody(w, st, d);
    var body, told := Writer.Body(w, d), Read(st, Writer.Body(w, d));
    if w.textOpen || d.delta != "" {
      ReadThenStop(st, body, told.st, told.emitted, w.index);
    } else {
      assert body + [] == body;
    }
  }

  /** The index at which a chunk's tool blocks begin. */
  function NextBlock(w: Writer.State, d: StreamDelta): nat {
    if w.textOpen || d.delta != "" then w.index + 1 else w.index
  }

  lemma {:induction false} EmitIs(w: Writer.State, d: StreamDelta)
    requires d.finishReason != ""
    ensures Writer.Emit(w, d).events ==
            (Writer.Body(w, d) + Writer.Close(w.textOpen || d.delta != "", w.index))
            + Writer.Tail(NextBlock(w, d), d.toolCalls, d.finishReason, d.usage)
  {
  }

  lemma {:induction false} ReadEnd(w: Writer.State, st: State, d: StreamDelta, told: Outcome)
    requires d.finishReason != "" && Read(st, Writer.Body(w, d)) == told && !told.failed
    ensures var closing := Closing(told.st, NextBlock(w, d), d.toolCalls, d.finishReason, Writer.Completion(d.usage));
            Read(st, Writer.Emit(w, d).events) == Outcome(closing, told.emitted + [Final(closing)], false)
  {
    var closing := Closing(told.st, NextBlock(w, d), d.toolCalls, d.finishReason, Writer.Completion(d.usage));
    ReadClosed(w, st, d);
    ReadTail(told.st, NextBlock(w, d), d.toolCalls, d.finishReason, d.usage);
    ReadBoth(st, Writer.Body(w, d) + Writer.Close(w.textOpen || d.delta != "", w.index), told.st, told.emitted,
             Writer.Tail(NextBlock(w, d), d.toolCalls, d.finishReason, d.usage), closing, [Final(closing)]);
    EmitIs(w, d);
  }

  lemma {:induction false} ReadEmit(w: Writer.State, st: State, d: StreamDelta)
    ensures var told := Read(st, Writer.Body(w, d));
            var closing := Closing(told.st, NextBlock(w, d), d.toolCalls, d.finishReason, Writer.Completion(d.usage));
            Read(st, Writer.Emit(w, d).events) ==
            if d.finishReason == "" then told else Outcome(closing, told.emitted + [Final(closing)], false)
  {
    if d.finishReason == "" {
      assert Writer.Emit(w, d).events == Writer.Body(w, d);
    } else {
      ReadBody(w, st, d);
      ReadEnd(w, st, d, Read(st, Writer.Body(w, d)));
    }
  }

  /** The blocks a reader holds, all below `index`, are these calls. */
  ghost predicate Blocks(tools: map<int, ToolBlock>, index: nat, calls: seq<ToolCall>) {
    && (forall k :: k in tools ==> k < index)
    && (tools == map[] <==> calls == [])
    && CallsOf(tools) == multiset(AllWithArguments(calls))
  }

  /** A writer that has printed a run, and a reader that has read it: the blocks held are the calls so far. */
  ghost predicate InStep(w: Writer.State, st: State, deltas: seq<StreamDelta>) {
    && (if deltas == [] then w == Writer.FRESH else w.started)
    && Blocks(st.tools, w.index, CallsSoFar(deltas))
    && st.inputTokens == (if deltas == [] then 0 else Writer.Prompt(deltas[0].usage))
    && st.delivered == HasContent(deltas)
  }

  lemma {:induction false} AddBlocksBelow(tools: map<int, ToolBlock>, index: nat, calls: seq<ToolCall>)
    requires forall k :: k in tools ==> k < index
    ensures forall k :: k in AddBlocks(tools, index, calls) ==> k < index + |calls|
    decreases |calls|
  {
    if calls == [] {
    } else {
      AddBlocksBelow(tools[index := ToolBlock(calls[0].id, calls[0].name, calls[0].arguments)], index + 1, calls[1..]);
    }
  }

  lemma {:induction false} SoFarNext(before: seq<StreamDelta>, d: StreamDelta)
    ensures CallsSoFar(before + [d]) == CallsSoFar(before) + if d.finishReason == "" then [] else d.toolCalls
    ensures Texts(before + [d]) == Texts(before) + if d.delta == "" then [] else [d.delta]
    ensures HasContent(before + [d]) <==>
            HasContent(before) || d.delta != "" || (d.finishReason != "" && d.toolCalls != [])
  {
    assert (before + [d])[..|before|] == before;
    Grammar.TextsNext(before, d);
  }

  lemma {:induction false} BlocksNext(tools: map<int, ToolBlock>, index: nat, calls: seq<ToolCall>,
                                      more: seq<ToolCall>)
    requires Blocks(tools, index, calls)
    ensures Blocks(AddBlocks(tools, index, more), index + |more|, calls + more)
  {
    AddBlocksBelow(tools, index, more);
    AddBlocksCalls(tools, index, more);
    AddBlocksKeys(tools, index, more);
    AllWithArgumentsAppend(calls, more);
    if more == [] {
      PlusNothing(calls);
    } else {
      assert index in AddBlocks(tools, index, more);
    }
  }

  /** The state after the text of one chunk more. */
  lemma {:induction false} BodyInStep(w: Writer.State, st: State, before: seq<StreamDelta>, d: StreamDelta)
    requires InStep(w, st, before)
    ensures var told := Read(st, Writer.Body(w, d)).st;
            && told.tools == st.tools && told.inputTokens == Writer.Prompt((before + [d])[0].usage)
            && (told.delivered <==> HasContent(before) || d.delta != "")
  {
    ReadBody(w, st, d);
    assert (before + [d])[0] == if before == [] then d else before[0];
  }

  /** One chunk more keeps them in step. */
  lemma {:induction false} StaysInStep(w: Writer.State, st: State, before: seq<StreamDelta>, d: StreamDelta)
    requires InStep(w, st, before)
    ensures InStep(Writer.Emit(w, d).st, Read(st, Writer.Emit(w, d).events).st, before + [d])
  {
    BodyInStep(w, st, before, d);
    ReadEmit(w, st, d);
    SoFarNext(before, d);
    if d.finishReason == "" {
      PlusNothing(CallsSoFar(before));
    } else {
      BlocksNext(st.tools, NextBlock(w, d), CallsSoFar(before), d.toolCalls);
    }
  }

  lemma {:induction false} FinalIsClosing(st: State, w: Writer.State, deltas: seq<StreamDelta>)
    requires deltas != [] && InStep(w, st, deltas)
    requires st.stopReason == StopReason(deltas[|deltas| - 1].finishReason)
    requires st.outputTokens == Writer.Completion(deltas[|deltas| - 1].usage)
    ensures Final(st) == ClosingChunk(deltas)
  {
    FinishReasonRoundTrip(deltas[|deltas| - 1].finishReason);
  }

  /** What one chunk more is read as. */
  lemma {:induction false} HeardNext(w: Writer.State, st: State, before: seq<StreamDelta>, d: StreamDelta)
    requires InStep(w, st, before)
    ensures var r := Read(st, Writer.Emit(w, d).events);
            !r.failed && Heard(before) + r.emitted == Heard(before + [d])
  {
    var deltas := before + [d];
    assert deltas[..|before|] == before;
    ReadBody(w, st, d);
    ReadEmit(w, st, d);
    StaysInStep(w, st, before, d);
    var text, r := if d.delta == "" then [] else [TextSeen(d.delta)], Read(st, Writer.Emit(w, d).events);
    if d.finishReason == "" {
      PlusNothing(text);
    } else {
      FinalIsClosing(r.st, Writer.Emit(w, d).st, deltas);
    }
  }

  /**
   * The event round trip, for every run of chunks, finished or not: no printed run is read as an error, and what is
   * read is exactly `Heard`.
   */
  lemma {:induction false} RunIsHeard(deltas: seq<StreamDelta>)
    ensures var printed := Writer.EmitAll(Writer.FRESH, deltas);
            var r := Read(FRESH, printed.events);
            InStep(printed.st, r.st, deltas) && r.emitted == Heard(deltas) && !r.failed
  {
    if deltas == [] {
      ReadNone(FRESH);
      assert CallsOf(map[]) == multiset{};
    } else {
      var before, d := deltas[..|deltas| - 1], deltas[|deltas| - 1];
      var printed := Writer.EmitAll(Writer.FRESH, before);
      var st := Read(FRESH, printed.events).st;
      assert deltas == before + [d];
      RunIsHeard(before);
      StaysInStep(printed.st, st, before, d);
      HeardNext(printed.st, st, before, d);
      ReadAppend(FRESH, printed.events, Writer.Emit(printed.st, d).events);
    }
  }

  /** A run without a finish reason is heard as its texts. */
  lemma {:induction false} HeardUnfinished(deltas: seq<StreamDelta>)
    requires Unfinished(deltas)
    ensures Heard(deltas) == TextsSeen(Texts(deltas)) && CallsSoFar(deltas) == []
  {
    if deltas == [] {
    } else {
      var before, d := deltas[..|deltas| - 1], deltas[|deltas| - 1];
      assert deltas == before + [d];
      HeardUnfinished(before);
      Grammar.TextsNext(before, d);
      TextsSeenNext(Texts(before), d.delta);
    }
  }

  lemma {:induction false} TextsSeenNext(texts: seq<string>, text: string)
    ensures TextsSeen(texts + if text == "" then [] else [text]) ==
            TextsSeen(texts) + ((if text == "" then [] else [TextSeen(text)]) + [])
  {
    if text == "" {
      PlusNothing(texts);
      PlusNothing(TextsSeen(texts));
    } else {
      assert (texts + [text])[..|texts|] == texts;
    }
  }

  /** What reading a finished run gives back: its non-empty texts, and one final chunk. */
  function Expected(deltas: seq<StreamDelta>): seq<Emission>
    requires deltas != []
  {
    var last := deltas[|deltas| - 1];
    TextsSeen(Texts(deltas))
    + [FinalChunk(if last.toolCalls != [] then "tool_calls"
                  else if Portable(last.finishReason) then last.finishReason
                  else "stop",
                  Writer.Prompt(deltas[0].usage), Writer.Completion(last.usage), last.toolCalls)]
  }

  lemma {:induction false} HeardFinished(before: seq<StreamDelta>, last: StreamDelta)
    requires Unfinished(before) && last.finishReason != ""
    ensures Heard(before + [last]) == Expected(before + [last]) && CallsSoFar(before + [last]) == last.toolCalls
  {
    var deltas, text := before + [last], if last.delta == "" then [] else [TextSeen(last.delta)];
    assert deltas[..|before|] == before;
    HeardUnfinished(before);
    SoFarNext(before, last);
    assert [] + last.toolCalls == last.toolCalls;
    TextsSeenNext(Texts(before), last.delta);
    PlusNothing(text);
    Regroup(TextsSeen(Texts(before)), text, [ClosingChunk(deltas)]);
  }

  /** A finished run comes back as its non-empty texts in order and its final chunk. */
  lemma {:induction false} EventRoundTrip(deltas: seq<StreamDelta>)
    requires Finished(deltas)
    ensures var result := Read(FRESH, Writer.EmitAll(Writer.FRESH, deltas).events);
            && result.st.delivered == (Texts(deltas) != [] || deltas[|deltas| - 1].toolCalls != [])
            && result.emitted == Expected(deltas)
            && !result.failed
  {
    var before, last := deltas[..|deltas| - 1], deltas[|deltas| - 1];
    assert deltas == before + [last];
    RunIsHeard(deltas);
    HeardFinished(before, last);
  }

  // ---- through the text -----------------------------------------------------------------------

  /** How an event is put into a frame, given an encoding of payloads. */
  function PrintFrame(e: Event, encode: Payload -> string): RawFrame {
    RawFrame(OnWire(e).name, encode(OnWire(e).payload))
  }

  function PrintFrames(events: seq<Event>, encode: Payload -> string): seq<RawFrame> {
    if events == [] then []
    else PrintFrames(events[..|events| - 1], encode) + [PrintFrame(events[|events| - 1], encode)]
  }

  /** The encoding puts a payload on one line without outer blanks, and the decoding undoes it. */
  ghost predicate Codec(encode: Payload -> string, decode: string -> Option<Payload>) {
    forall p :: Clean(encode(p)) && decode(encode(p)) == Some(p)
  }

  function NameOf(e: Event): string {
    OnWire(e).name
  }

  lemma {:induction false} NameIsClean(e: Event)
    ensures Clean(NameOf(e))
  {
  }

  lemma {:induction false} FrameIsPrintable(e: Event, encode: Payload -> string, decode: string -> Option<Payload>)
    requires Codec(encode, decode)
    ensures Printable(PrintFrame(e, encode))
  {
    NameIsClean(e);
  }

  lemma {:induction false} FramesArePrintable(events: seq<Event>, encode: Payload -> string,
                                              decode: string -> Option<Payload>)
    requires Codec(encode, decode)
    ensures forall f :: f in PrintFrames(events, encode) ==> Printable(f)
  {
    if events == [] {
    } else {
      var before, e := events[..|events| - 1], events[|events| - 1];
      FramesArePrintable(before, encode, decode);
      FrameIsPrintable(e, encode, decode);
      assert PrintFrames(events, encode) == PrintFrames(before, encode) + [PrintFrame(e, encode)];
    }
  }

  lemma {:induction false} FramesDecode(events: seq<Event>, encode: Payload -> string,
                                        decode: string -> Option<Payload>)
    requires Codec(encode, decode)
    ensures Decoded(PrintFrames(events, encode), decode) == WireAll(events)
  {
    if events == [] {
    } else {
      var before, e := events[..|events| - 1], events[|events| - 1];
      var frames, f := PrintFrames(before, encode), PrintFrame(e, encode);
      FramesDecode(before, encode, decode);
      assert (frames + [f])[..|frames|] == frames;
    }
  }

  /** A text that parses to the frames of a run is read back as that run. */
  lemma {:induction false} ConsumeParsed(text: string, deltas: seq<StreamDelta>, encode: Payload -> string,
                                         decode: string -> Option<Payload>)
    requires Codec(encode, decode)
    requires Parse(text) == PrintFrames(Writer.EmitAll(Writer.FRESH, deltas).events, encode)
    ensures Consume(Lines(text), false, decode) ==
            Reading(Heard(deltas), if HasContent(deltas) then None else Some(NoContent))
  {
    var events := Writer.EmitAll(Writer.FRESH, deltas).events;
    var g := Gather(NOTHING, Lines(text));
    RunIsHeard(deltas);
    FramesDecode(events, encode, decode);
    DecodedAppend(g.frames, Flush(g.rest), decode);
    FeedAppend(FRESH, Decoded(g.frames, decode), Decoded(Flush(g.rest), decode));
  }

  /**
   * The round trip over text, for every run of chunks: printing it and reading the text gives back exactly what
   * `Heard` says. It is an error exactly when the run had neither text nor calls.
   */
  lemma {:induction false} TextRoundTrip(deltas: seq<StreamDelta>, encode: Payload -> string,
                                         decode: string -> Option<Payload>)
    requires Codec(encode, decode)
    ensures var text := RenderAll(PrintFrames(Writer.EmitAll(Writer.FRESH, deltas).events, encode));
            Consume(Lines(text), false, decode) ==
            Reading(Heard(deltas), if HasContent(deltas) then None else Some(NoContent))
  {
    var frames := PrintFrames(Writer.EmitAll(Writer.FRESH, deltas).events, encode);
    FramesArePrintable(Writer.EmitAll(Writer.FRESH, deltas).events, encode, decode);
    FramingRoundTrip(frames);
    ConsumeParsed(RenderAll(frames), deltas, encode, decode);
  }
}
