/** What the printed Anthropic events look like as a whole: an independent grammar, and the closed form of a run. */
module AnthropicGrammar {
  import opened Chat
  import opened AnthropicWire
  import opened AnthropicWriter
  import opened Capture
  import opened Collections

  // ---- the event grammar ----------------------------------------------------------------------

  /** Where a well-formed event stream stands. */
  datatype Phase =
    | Start
    | Ready(next: nat)
    | TextOpened(index: nat)
    | TextFilled(index: nat)
    | ToolOpened(index: nat)
    | ToolFilled(index: nat)
    | Stopping
    | Done

  /**
   * The grammar: one message_start; blocks numbered 0, 1, 2, ..., each opened, filled and closed before the next;
   * only block 0 may be text, and no text fragment is empty; one message_delta; one message_stop; nothing more.
   */
  function Advance(p: Phase, e: Event): Option<Phase> {
    match (p, e)
    case (Start, MessageStart(_)) => Some(Ready(0))
    case (Ready(n), TextStart(i)) => if i == n == 0 then Some(TextOpened(n)) else None
    case (Ready(n), ToolStart(i, _, _)) => if i == n then Some(ToolOpened(n)) else None
    case (Ready(_), MessageDelta(_, _)) => Some(Stopping)
    case (TextOpened(n), TextFragment(i, text)) => if i == n && text != "" then Some(TextFilled(n)) else None
    case (TextFilled(n), TextFragment(i, text)) => if i == n && text != "" then Some(TextFilled(n)) else None
    case (TextFilled(n), BlockStop(i)) => if i == n then Some(Ready(n + 1)) else None
    case (ToolOpened(n), ArgumentsFragment(i, _)) => if i == n then Some(ToolFilled(n)) else None
    case (ToolFilled(n), BlockStop(i)) => if i == n then Some(Ready(n + 1)) else None
    case (Stopping, MessageStop) => Some(Done)
    case _ => None
  }

  function Recognise(p: Phase, events: seq<Event>): Option<Phase>
    decreases |events|
  {
    if events == [] then Some(p)
    else
      var next := Advance(p, events[0]);
      if next.None? then None else Recognise(next.value, events[1..])
  }

  lemma {:induction false} RecogniseAppend(p: Phase, a: seq<Event>, b: seq<Event>)
    ensures Recognise(p, a + b) ==
            var mid := Recognise(p, a); if mid.None? then None else Recognise(mid.value, b)
    decreases |a|
  {
    if a == [] {
      assert a + b == b;
    } else {
      assert (a + b)[1..] == a[1..] + b;
      var next := Advance(p, a[0]);
      if next.Some? {
        RecogniseAppend(next.value, a[1..], b);
      }
    }
  }

  /** What the writer's flags say about the stream it has printed so far. */
  function PhaseOf(st: State): Phase {
    if !st.started then Start else if st.textOpen then TextFilled(st.index) else Ready(st.index)
  }

  /** The writer before its final chunk: no block but the text block has been opened. */
  predicate Streaming(st: State) {
    st.index == 0 && (st.textOpen ==> st.started)
  }

  lemma {:induction false} One(p: Phase, e: Event)
    ensures Recognise(p, [e]) == Advance(p, e)
  {
    assert [e][1..] == [];
  }

  lemma {:induction false} ToolBlockAdvances(index: nat, call: ToolCall)
    ensures Recognise(Ready(index), ToolBlock(index, call)) == Some(Ready(index + 1))
  {
    var a, b, c := ToolStart(index, call.id, call.name), ArgumentsFragment(index, call.arguments), BlockStop(index);
    assert ToolBlock(index, call) == [a] + ([b] + [c]);
    RecogniseAppend(Ready(index), [a], [b] + [c]);
    RecogniseAppend(ToolOpened(index), [b], [c]);
    One(Ready(index), a);
    One(ToolOpened(index), b);
    One(ToolFilled(index), c);
  }

  lemma {:induction false} ToolBlocksAdvance(index: nat, calls: seq<ToolCall>)
    ensures Recognise(Ready(index), ToolBlocks(index, calls)) == Some(Ready(index + |calls|))
    decreases |calls|
  {
    if calls == [] {
    } else {
      ToolBlockAdvances(index, calls[0]);
      RecogniseAppend(Ready(index), ToolBlock(index, calls[0]), ToolBlocks(index + 1, calls[1..]));
      ToolBlocksAdvance(index + 1, calls[1..]);
    }
  }

  lemma {:induction false} TailAdvances(index: nat, calls: seq<ToolCall>, finish: string, usage: Option<Usage>)
    ensures Recognise(Ready(index), Tail(index, calls, finish, usage)) == Some(Done)
  {
    var a, b := MessageDelta(StopReason(finish), Completion(usage)), MessageStop;
    ToolBlocksAdvance(index, calls);
    RecogniseAppend(Ready(index), ToolBlocks(index, calls), [a, b]);
    assert [a, b] == [a] + [b];
    RecogniseAppend(Ready(index + |calls|), [a], [b]);
    One(Ready(index + |calls|), a);
    One(Stopping, b);
  }

  lemma {:induction false} TextAdvances(st: State, text: string)
    requires Streaming(st) && st.started
    ensures Recognise(PhaseOf(st), TextEvents(st, text)) ==
            Some(PhaseOf(st.(textOpen := st.textOpen || text != "")))
  {
    if text != "" {
      var fill := TextFragment(st.index, text);
      if st.textOpen {
        assert TextEvents(st, text) == [fill];
        One(PhaseOf(st), fill);
      } else {
        RecogniseAppend(PhaseOf(st), [TextStart(st.index)], [fill]);
        One(PhaseOf(st), TextStart(st.index));
        One(TextOpened(st.index), fill);
      }
    }
  }

  lemma {:induction false} BodyAdvances(st: State, d: StreamDelta)
    requires Streaming(st)
    ensures Recognise(PhaseOf(st), Body(st, d)) ==
            Some(PhaseOf(State(true, st.textOpen || d.delta != "", 0, st.usage)))
  {
    var opening := Opening(st, Latest(d.usage, st));
    var begun := st.(started := true);
    if !st.started {
      One(PhaseOf(st), opening[0]);
    }
    RecogniseAppend(PhaseOf(st), opening, TextEvents(st, d.delta));
    TextAdvances(begun, d.delta);
    assert TextEvents(begun, d.delta) == TextEvents(st, d.delta);
  }

  /** From a body on: the text block is closed if it is open, and the tail follows. */
  lemma {:induction false} EndAdvances(open: bool, calls: seq<ToolCall>, finish: string, usage: Option<Usage>)
    ensures Recognise(if open then TextFilled(0) else Ready(0),
                      Close(open, 0) + Tail(if open then 1 else 0, calls, finish, usage)) == Some(Done)
  {
    var tail := Tail(if open then 1 else 0, calls, finish, usage);
    TailAdvances(if open then 1 else 0, calls, finish, usage);
    if open {
      RecogniseAppend(TextFilled(0), [BlockStop(0)], tail);
      One(TextFilled(0), BlockStop(0));
    } else {
      assert [] + tail == tail;
    }
  }

  lemma {:induction false} EmitAdvances(st: State, d: StreamDelta)
    requires Streaming(st)
    ensures Recognise(PhaseOf(st), Emit(st, d).events) ==
            Some(if d.finishReason == "" then PhaseOf(Emit(st, d).st) else Done)
  {
    BodyAdvances(st, d);
    if d.finishReason != "" {
      var open := st.textOpen || d.delta != "";
      var tail := Tail(if open then 1 else 0, d.toolCalls, d.finishReason, d.usage);
      EndAdvances(open, d.toolCalls, d.finishReason, d.usage);
      RecogniseAppend(PhaseOf(st), Body(st, d), Close(open, 0) + tail);
      Regroup(Body(st, d), Close(open, 0), tail);
    }
  }

  /** Every run of unfinished chunks prints a beginning of a well-formed stream. */
  lemma {:induction false} PartialRunsFollowGrammar(deltas: seq<StreamDelta>)
    requires Unfinished(deltas)
    ensures var printed := EmitAll(FRESH, deltas);
            Streaming(printed.st) && Recognise(Start, printed.events) == Some(PhaseOf(printed.st))
  {
    if deltas == [] {
    } else {
      var before := deltas[..|deltas| - 1];
      PartialRunsFollowGrammar(before);
      var printed := EmitAll(FRESH, before);
      EmitAdvances(printed.st, deltas[|deltas| - 1]);
      RecogniseAppend(Start, printed.events, Emit(printed.st, deltas[|deltas| - 1]).events);
    }
  }

  /** A run closed by its final chunk prints one complete well-formed stream. */
  lemma {:induction false} FinishedRunsFollowGrammar(deltas: seq<StreamDelta>)
    requires Finished(deltas)
    ensures Recognise(Start, EmitAll(FRESH, deltas).events) == Some(Done)
  {
    var before := deltas[..|deltas| - 1];
    PartialRunsFollowGrammar(before);
    var printed := EmitAll(FRESH, before);
    EmitAdvances(printed.st, deltas[|deltas| - 1]);
    RecogniseAppend(Start, printed.events, Emit(printed.st, deltas[|deltas| - 1]).events);
  }

  /** One chunk has a finish reason, and no chunk after it has text. */
  ghost predicate ClosedAt(deltas: seq<StreamDelta>, k: nat) {
    && k < |deltas| && deltas[k].finishReason != "" && Unfinished(deltas[..k])
    && forall j :: k < j < |deltas| ==> deltas[j].finishReason == "" && deltas[j].delta == ""
  }

  ghost predicate Closed(deltas: seq<StreamDelta>) {
    exists k: nat :: ClosedAt(deltas, k)
  }

  lemma {:induction false} UnfinishedNext(before: seq<StreamDelta>, d: StreamDelta)
    ensures Unfinished(before + [d]) <==> Unfinished(before) && d.finishReason == ""
  {
    assert forall x :: x in before + [d] <==> x in before || x == d;
  }

  lemma {:induction false} ClosedNext(before: seq<StreamDelta>, d: StreamDelta)
    ensures Closed(before + [d]) <==>
            if d.finishReason != "" then Unfinished(before) else Closed(before) && d.delta == ""
    ensures Closed(before) ==> !Unfinished(before)
  {
    var all, n := before + [d], |before|;
    assert forall k: nat :: k < n ==> all[..k] == before[..k] && all[k] == before[k];
    assert all[..n] == before && all[n] == d;
    if k: nat :| ClosedAt(all, k) {
      assert k < n ==> ClosedAt(before, k);
    }
    if k: nat :| ClosedAt(before, k) {
      assert before[k] in before;
      assert d.finishReason == "" && d.delta == "" ==> ClosedAt(all, k);
    }
    assert d.finishReason != "" && Unfinished(before) ==> ClosedAt(all, n);
  }

  /** After the end nothing fits any more. */
  lemma {:induction false} DoneStops(events: seq<Event>)
    requires events != []
    ensures Recognise(Done, events) == None
  {
  }

  /** What a chunk prints on a writer whose message is over. */
  lemma {:induction false} AfterDone(st: State, d: StreamDelta)
    requires st.started && !st.textOpen
    ensures Recognise(Done, Emit(st, d).events) ==
            if d.finishReason == "" && d.delta == "" then Some(Done) else None
    ensures d.finishReason == "" && d.delta == "" ==> Emit(st, d).st.started && !Emit(st, d).st.textOpen
  {
    if d.finishReason == "" && d.delta == "" {
      assert Emit(st, d).events == [];
    } else {
      assert d.finishReason != "" ==> |Tail(0, d.toolCalls, d.finishReason, d.usage)| >= 2;
      DoneStops(Emit(st, d).events);
    }
  }

  /**
   * Every run, whatever its chunks: as long as none has a finish reason it prints a beginning of a well-formed stream,
   * once it is closed the whole of one, and otherwise no well-formed stream at all.
   */
  lemma {:induction false} RunsAre(deltas: seq<StreamDelta>)
    ensures var printed := EmitAll(FRESH, deltas);
            && Recognise(Start, printed.events) ==
               (if Unfinished(deltas) then Some(PhaseOf(printed.st)) else if Closed(deltas) then Some(Done) else None)
            && (Unfinished(deltas) ==> Streaming(printed.st))
            && (Closed(deltas) ==> printed.st.started && !printed.st.textOpen)
  {
    if deltas == [] {
    } else {
      var before, d := deltas[..|deltas| - 1], deltas[|deltas| - 1];
      var printed := EmitAll(FRESH, before);
      assert deltas == before + [d];
      RunsAre(before);
      UnfinishedNext(before, d);
      ClosedNext(before, d);
      RecogniseAppend(Start, printed.events, Emit(printed.st, d).events);
      if Unfinished(before) {
        EmitAdvances(printed.st, d);
      } else if Closed(before) {
        AfterDone(printed.st, d);
      }
    }
  }

  /** A run prints one complete well-formed stream if and only if it is closed. */
  lemma {:induction false} CompleteIffClosed(deltas: seq<StreamDelta>)
    ensures Recognise(Start, EmitAll(FRESH, deltas).events) == Some(Done) <==> Closed(deltas)
  {
    RunsAre(deltas);
    if Closed(deltas) {
      ClosedNext(deltas, ERROR_DELTA);
    }
  }

  /** Every run begins with the prompt tokens of its first chunk. */
  lemma {:induction false} BeginsWithPrompt(deltas: seq<StreamDelta>)
    requires deltas != []
    ensures var events, usage := EmitAll(FRESH, deltas).events, deltas[0].usage;
            events != [] && events[0] == MessageStart(if usage.Some? then usage.value.prompt else 0)
  {
    if |deltas| == 1 {
    } else {
      BeginsWithPrompt(deltas[..|deltas| - 1]);
    }
  }

  lemma {:induction false} EmitEnds(st: State, d: StreamDelta)
    requires d.finishReason != ""
    ensures var events := Emit(st, d).events;
            var n := |events|;
            && n >= 2 && events[n - 1] == MessageStop
            && events[n - 2] == MessageDelta(StopReason(d.finishReason), Completion(d.usage))
  {
    var open := st.textOpen || d.delta != "";
    var tail := Tail(if open then st.index + 1 else st.index, d.toolCalls, d.finishReason, d.usage);
    assert Emit(st, d).events == (Body(st, d) + Close(open, st.index)) + tail;
  }

  /** The stop reason of a finish reason. */
  ghost predicate Means(stop: string, finish: string) {
    && (finish == "length" ==> stop == "max_tokens")
    && (finish == "tool_calls" ==> stop == "tool_use")
    && (finish == "error" ==> stop == "error")
    && (finish !in {"length", "tool_calls", "error"} ==> stop == "end_turn")
  }

  lemma {:induction false} StopReasonMeans(finish: string)
    ensures Means(StopReason(finish), finish)
  {
  }

  /** A run that ends in a finish reason prints its stop reason and its completion tokens last, and a message_stop. */
  lemma {:induction false} EndsWithOutcome(deltas: seq<StreamDelta>)
    requires deltas != [] && deltas[|deltas| - 1].finishReason != ""
    ensures var events, last := EmitAll(FRESH, deltas).events, deltas[|deltas| - 1];
            var n := |events|;
            && n >= 2 && events[n - 1] == MessageStop && events[n - 2].MessageDelta?
            && events[n - 2].outputTokens == (if last.usage.Some? then last.usage.value.completion else 0)
            && Means(events[n - 2].stopReason, last.finishReason)
  {
    EmitEnds(EmitAll(FRESH, deltas[..|deltas| - 1]).st, deltas[|deltas| - 1]);
    StopReasonMeans(deltas[|deltas| - 1].finishReason);
  }

  /** A writer keeps the last usage it has seen. */
  lemma {:induction false} UsageIsLast(deltas: seq<StreamDelta>, u: int)
    requires -1 <= u < |deltas| && (u >= 0 ==> deltas[u].usage.Some?)
    requires forall i :: u < i < |deltas| ==> deltas[i].usage.None?
    ensures EmitAll(FRESH, deltas).st.usage == if u < 0 then None else deltas[u].usage
  {
    if deltas == [] || u == |deltas| - 1 {
    } else {
      UsageIsLast(deltas[..|deltas| - 1], u);
    }
  }

  /** A burst ends with the completion tokens of its own usage, or of the last one the writer has seen. */
  lemma {:induction false} BurstEndsWithTokens(st: State, resp: ChatResponse)
    ensures var events := Burst(st, resp);
            var n := |events|;
            && n >= 2 && events[n - 1] == MessageStop && events[n - 2].MessageDelta?
            && events[n - 2].outputTokens == (if resp.usage != Usage(0, 0, 0) then resp.usage.completion
                                              else if st.usage.Some? then st.usage.value.completion else 0)
  {
    var usage := Latest(if resp.usage == NO_USAGE then None else Some(resp.usage), st);
    var tail := Tail(if resp.content != "" then st.index + 1 else st.index, resp.toolCalls, resp.finishReason, usage);
    assert |tail| >= 2 && tail[|tail| - 1] == MessageStop;
    assert tail[|tail| - 2] == MessageDelta(StopReason(resp.finishReason), Completion(usage));
  }

  /** A completed response as one chunk. */
  function AsDelta(resp: ChatResponse): StreamDelta {
    StreamDelta(resp.content, if resp.finishReason == "" then "stop" else resp.finishReason,
                if resp.usage == NO_USAGE then None else Some(resp.usage), resp.toolCalls, "")
  }

  /** On a writer that has printed nothing, a burst is the response printed as a single chunk. */
  lemma {:induction false} BurstIsOneChunk(resp: ChatResponse)
    ensures Burst(FRESH, resp) == Emit(FRESH, AsDelta(resp)).events
  {
  }

  /** A burst, whatever the response, prints one complete well-formed stream. */
  lemma {:induction false} BurstsFollowGrammar(resp: ChatResponse)
    ensures Recognise(Start, Burst(FRESH, resp)) == Some(Done)
  {
    BurstIsOneChunk(resp);
    EmitAdvances(FRESH, AsDelta(resp));
  }

  // ---- the closed form ------------------------------------------------------------------------

  function Fragments(texts: seq<string>): seq<Event> {
    if texts == [] then [] else Fragments(texts[..|texts| - 1]) + [TextFragment(0, texts[|texts| - 1])]
  }

  /** The text block, still open. */
  function OpenText(texts: seq<string>): seq<Event> {
    if texts == [] then [] else [TextStart(0)] + Fragments(texts)
  }

  function TextBlock(texts: seq<string>): seq<Event> {
    if texts == [] then [] else OpenText(texts) + [BlockStop(0)]
  }

  lemma {:induction false} OpenTextNext(texts: seq<string>, text: string)
    ensures OpenText(texts + [text]) ==
            OpenText(texts) + (if texts == [] then [TextStart(0)] else []) + [TextFragment(0, text)]
  {
    assert (texts + [text])[..|texts|] == texts;
    assert Fragments(texts + [text]) == Fragments(texts) + [TextFragment(0, text)];
  }

  lemma {:induction false} TextsNext(before: seq<StreamDelta>, d: StreamDelta)
    ensures Texts(before + [d]) == Texts(before) + if d.delta == "" then [] else [d.delta]
  {
    TextsAppend(before, [d]);
  }

  /** One chunk more of a run whose text block holds `texts`. */
  lemma {:induction false} BodyIs(st: State, texts: seq<string>, d: StreamDelta)
    requires st.started && st.index == 0 && (st.textOpen <==> texts != [])
    ensures OpenText(texts) + Body(st, d) == OpenText(texts + if d.delta == "" then [] else [d.delta])
  {
    if d.delta == "" {
      assert texts + [] == texts && OpenText(texts) + Body(st, d) == OpenText(texts);
    } else {
      OpenTextNext(texts, d.delta);
      assert Body(st, d) == (if texts == [] then [TextStart(0)] else []) + [TextFragment(0, d.delta)];
    }
  }

  /** The first chunk of a run. */
  lemma {:induction false} FirstBodyIs(d: StreamDelta)
    ensures Body(FRESH, d) ==
            [MessageStart(Prompt(d.usage))] + OpenText(if d.delta == "" then [] else [d.delta])
  {
    OpenTextNext([], d.delta);
    assert [] + [d.delta] == [d.delta];
  }

  /** Where a run of unfinished chunks stands. */
  lemma {:induction false} PartialState(before: seq<StreamDelta>)
    requires Unfinished(before)
    ensures var st := EmitAll(FRESH, before).st;
            (before != [] ==> st.started) && st.index == 0 && (st.textOpen <==> Texts(before) != [])
  {
    if before == [] {
    } else {
      var earlier, last := before[..|before| - 1], before[|before| - 1];
      assert before == earlier + [last];
      PartialState(earlier);
      TextsNext(earlier, last);
    }
  }

  /** What a run of chunks has printed before anything is closed: the start, and the open text block. */
  lemma {:induction false} PartialReplay(before: seq<StreamDelta>, d: StreamDelta)
    requires Unfinished(before)
    ensures var printed := EmitAll(FRESH, before);
            printed.events + Body(printed.st, d) ==
            [MessageStart(Prompt((before + [d])[0].usage))] + OpenText(Texts(before + [d]))
  {
    TextsNext(before, d);
    if before == [] {
      FirstBodyIs(d);
      assert [] + Body(FRESH, d) == Body(FRESH, d);
    } else {
      var earlier, last := before[..|before| - 1], before[|before| - 1];
      var start := [MessageStart(Prompt(before[0].usage))];
      assert before == earlier + [last];
      PartialReplay(earlier, last);
      assert EmitAll(FRESH, before).events == start + OpenText(Texts(before));
      PartialState(before);
      var st := EmitAll(FRESH, before).st;
      Regroup(start, OpenText(Texts(before)), Body(st, d));
      BodyIs(st, Texts(before), d);
    }
  }

  lemma {:induction false} FinishedIs(before: seq<StreamDelta>, last: StreamDelta)
    requires Unfinished(before) && last.finishReason != ""
    ensures var printed := EmitAll(FRESH, before);
            var open := Texts(before + [last]) != [];
            EmitAll(FRESH, before + [last]).events ==
            printed.events + ((Body(printed.st, last) + Close(open, 0))
                              + Tail(if open then 1 else 0, last.toolCalls, last.finishReason, last.usage))
  {
    assert (before + [last])[..|before|] == before;
    PartialState(before);
    TextsNext(before, last);
  }

  /** What a finished run prints, in full. */
  lemma {:induction false} ReplayIs(deltas: seq<StreamDelta>)
    requires Finished(deltas)
    ensures var texts, last := Texts(deltas), deltas[|deltas| - 1];
            EmitAll(FRESH, deltas).events ==
            ([MessageStart(Prompt(deltas[0].usage))] + TextBlock(texts))
            + Tail(if texts == [] then 0 else 1, last.toolCalls, last.finishReason, last.usage)
  {
    var before, last, texts := deltas[..|deltas| - 1], deltas[|deltas| - 1], Texts(deltas);
    assert deltas == before + [last];
    PartialReplay(before, last);
    FinishedIs(before, last);
    var printed := EmitAll(FRESH, before);
    var tail := Tail(if texts != [] then 1 else 0, last.toolCalls, last.finishReason, last.usage);
    var start := [MessageStart(Prompt(deltas[0].usage))];
    Resplit(printed.events, Body(printed.st, last), start, OpenText(texts), Close(texts != [], 0), tail);
    ClosedText(texts);
  }

  lemma {:induction false} ClosedText(texts: seq<string>)
    ensures OpenText(texts) + Close(texts != [], 0) == TextBlock(texts)
  {
  }

  /**
   * Replaying a buffered run and bursting the response it collapses to print the same stream, up to how the text is
   * cut into fragments and the prompt tokens announced at the start: the same text, the same tool blocks at the same
   * indices, the same stop reason and output tokens.
   */
  lemma {:induction false} ReplayAndBurstAgree(deltas: seq<StreamDelta>)
    requires Finished(deltas)
    ensures var resp, last, texts := Collapse(deltas), deltas[|deltas| - 1], Texts(deltas);
            var tail := Tail(if texts == [] then 0 else 1, resp.toolCalls, resp.finishReason, last.usage);
            && Burst(FRESH, resp) ==
               [MessageStart(resp.usage.prompt)] + TextBlock(if texts == [] then [] else [Concat(texts)]) + tail
            && EmitAll(FRESH, deltas).events == [MessageStart(Prompt(deltas[0].usage))] + TextBlock(texts) + tail
  {
    CollapseFinished(deltas);
    ReplayIs(deltas);
    NonEmptyTexts(deltas);
    BurstIs(Collapse(deltas));
  }

  lemma {:induction false} BurstIs(resp: ChatResponse)
    ensures var texts := if resp.content == "" then [] else [resp.content];
            Burst(FRESH, resp) ==
            [MessageStart(resp.usage.prompt)] + TextBlock(texts)
            + Tail(if texts == [] then 0 else 1, resp.toolCalls, resp.finishReason,
                   if resp.usage == NO_USAGE then None else Some(resp.usage))
  {
    FirstBodyIs(AsDelta(resp));
  }

  lemma {:induction false} NonEmptyTexts(deltas: seq<StreamDelta>)
    ensures Concat(Texts(deltas)) == "" <==> Texts(deltas) == []
  {
    if deltas == [] {
    } else {
      NonEmptyTexts(deltas[1..]);
      if deltas[0].delta != "" {
        assert Texts(deltas)[0] == deltas[0].delta;
      } else {
        assert Texts(deltas) == Texts(deltas[1..]);
      }
    }
  }
}
