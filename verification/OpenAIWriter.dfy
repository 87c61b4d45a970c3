/** Printing canonical chunks as OpenAI chunk frames, and reading them back. */
module OpenAIWriter {
  import opened Chat
  import opened Collections
  import opened Provider
  import opened Capture
  import opened EventStream
  import opened ToolCallFragments
  import opened OpenAIReader
  import opened OpenAIComplete

  /** What every chunk of a response repeats, besides the model that served it. */
  datatype Head = Head(id: string, created: int, model: string)

  datatype Frame = ChunkFrame(head: Head, chunk: Chunk) | ErrorFrame(message: string) | DoneFrame

  /** Calls are printed without an index, so a reader finds index 0 on each of them. */
  function WireCalls(calls: seq<ToolCall>): seq<Fragment> {
    if calls == [] then []
    else
      var last := calls[|calls| - 1];
      WireCalls(calls[..|calls| - 1]) + [Fragment(0, last.id, last.name, last.arguments)]
  }

  function ChunkOf(first: bool, d: StreamDelta): Chunk {
    Chunk([Choice(if first then "assistant" else "", d.delta, WireCalls(d.toolCalls), "", d.finishReason)], d.usage)
  }

  function ChunksOf(first: bool, deltas: seq<StreamDelta>): seq<Chunk> {
    if deltas == [] then []
    else ChunksOf(first, deltas[..|deltas| - 1]) + [ChunkOf(first && |deltas| == 1, deltas[|deltas| - 1])]
  }

  function Frames(head: Head, chunks: seq<Chunk>): seq<Frame> {
    if chunks == [] then [] else Frames(head, chunks[..|chunks| - 1]) + [ChunkFrame(head, chunks[|chunks| - 1])]
  }

  /** The closing chunk of a completed response; a zero usage counts as none. */
  function BurstEnd(resp: ChatResponse): StreamDelta {
    StreamDelta("", resp.finishReason, if resp.usage == NO_USAGE then None else Some(resp.usage), resp.toolCalls, "")
  }

  /** A completed response as chunks: its content, if any, and the closing chunk. */
  function BurstDeltas(resp: ChatResponse): seq<StreamDelta> {
    (if resp.content == "" then [] else [TextDelta(resp.content)]) + [BurstEnd(resp)]
  }

  lemma {:induction false} FramesNext(head: Head, chunks: seq<Chunk>, c: Chunk)
    ensures Frames(head, chunks + [c]) == Frames(head, chunks) + [ChunkFrame(head, c)]
  {
    assert (chunks + [c])[..|chunks|] == chunks;
  }

  lemma {:induction false} OneChunk(head: Head, first: bool, d: StreamDelta)
    ensures ChunksOf(first, [d]) == [ChunkOf(first, d)]
    ensures Frames(head, ChunksOf(first, [d])) == [ChunkFrame(head, ChunkOf(first, d))]
  {
    assert [d][..0] == [] && [ChunkOf(first, d)][..0] == [];
  }

  lemma {:induction false} OneMore(head: Head, first: bool, d: StreamDelta, e: StreamDelta)
    ensures Frames(head, ChunksOf(first, [d, e])) ==
            [ChunkFrame(head, ChunkOf(first, d))] + [ChunkFrame(head, ChunkOf(false, e))]
  {
    OneChunk(head, first, d);
    assert [d, e][..1] == [d];
    FramesNext(head, [ChunkOf(first, d)], ChunkOf(false, e));
  }

  lemma {:induction false} BurstFrames(head: Head, first: bool, resp: ChatResponse)
    ensures var text, last := TextDelta(resp.content), BurstEnd(resp);
            Frames(head, ChunksOf(first, BurstDeltas(resp))) ==
            if resp.content == "" then [ChunkFrame(head, ChunkOf(first, last))]
            else [ChunkFrame(head, ChunkOf(first, text))] + [ChunkFrame(head, ChunkOf(false, last))]
  {
    var text, last := TextDelta(resp.content), BurstEnd(resp);
    if resp.content == "" {
      assert BurstDeltas(resp) == [last];
      OneChunk(head, first, last);
    } else {
      assert BurstDeltas(resp) == [text, last];
      OneMore(head, first, text, last);
    }
  }

  class SSEWriter {
    const id: string
    const created: int
    var first: bool
    var out: seq<Frame>

    function HeadFor(model: string): Head { Head(id, created, model) }

    constructor (id: string, created: int)
      ensures this.id == id && this.created == created && first && out == []
    {
      this.id, this.created, first, out := id, created, true, [];
    }

    method WriteChunk(model: string, d: StreamDelta)
      modifies this
      ensures !first && out == old(out) + [ChunkFrame(HeadFor(model), ChunkOf(old(first), d))]
    {
      var role := "";
      if first {
        role := "assistant";
        first := false;
      }
      var calls := [];
      for i := 0 to |d.toolCalls|
        invariant calls == WireCalls(d.toolCalls[..i])
      {
        var tc := d.toolCalls[i];
        assert d.toolCalls[..i + 1][..i] == d.toolCalls[..i];
        calls := calls + [Fragment(0, tc.id, tc.name, tc.arguments)];
      }
      WholePrefix(d.toolCalls);
      out := out + [ChunkFrame(Head(id, created, model),
                               Chunk([Choice(role, d.delta, calls, "", d.finishReason)], d.usage))];
    }

    method Replay(model: string, deltas: seq<StreamDelta>)
      modifies this
      ensures out == old(out) + Frames(HeadFor(model), ChunksOf(old(first), deltas))
    {
      for i := 0 to |deltas|
        invariant first == (old(first) && i == 0)
        invariant out == old(out) + Frames(HeadFor(model), ChunksOf(old(first), deltas[..i]))
      {
        assert deltas[..i + 1][..i] == deltas[..i];
        ghost var head, chunks := HeadFor(model), ChunksOf(old(first), deltas[..i]);
        FramesNext(head, chunks, ChunkOf(first, deltas[i]));
        Regroup(old(out), Frames(head, chunks), [ChunkFrame(head, ChunkOf(first, deltas[i]))]);
        WriteChunk(model, deltas[i]);
      }
      WholePrefix(deltas);
    }

    method WriteResponseBurst(model: string, resp: ChatResponse)
      modifies this
      ensures out == old(out) + Frames(HeadFor(model), ChunksOf(old(first), BurstDeltas(resp)))
    {
      ghost var head, was := HeadFor(model), first;
      ghost var text, last := ChunkFrame(head, ChunkOf(was, TextDelta(resp.content))), BurstEnd(resp);
      BurstFrames(head, was, resp);
      Regroup(out, [text], [ChunkFrame(head, ChunkOf(false, last))]);
      var usage := None;
      if resp.usage != NO_USAGE {
        usage := Some(resp.usage);
      }
      if resp.content != "" {
        WriteChunk(model, TextDelta(resp.content));
      }
      var end := StreamDelta("", resp.finishReason, usage, resp.toolCalls, "");
      assert end == last;
      WriteChunk(model, end);
    }

    method WriteError(message: string)
      modifies this`out
      ensures out == old(out) + [ErrorFrame(message)]
    {
      out := out + [ErrorFrame(message)];
    }

    method WriteDone()
      modifies this`out
      ensures out == old(out) + [DoneFrame]
    {
      out := out + [DoneFrame];
    }
  }

  // ---- what is printed ------------------------------------------------------------------------

  lemma {:induction false} ChunksAre(first: bool, deltas: seq<StreamDelta>)
    ensures |ChunksOf(first, deltas)| == |deltas|
    ensures forall i :: 0 <= i < |deltas| ==> ChunksOf(first, deltas)[i] == ChunkOf(first && i == 0, deltas[i])
  {
    if deltas == [] {
    } else {
      ChunksAre(first, deltas[..|deltas| - 1]);
    }
  }

  lemma {:induction false} WireCallsAre(calls: seq<ToolCall>)
    ensures |WireCalls(calls)| == |calls|
    ensures forall k :: 0 <= k < |calls| ==>
              WireCalls(calls)[k] == Fragment(0, calls[k].id, calls[k].name, calls[k].arguments)
  {
    if calls == [] {
    } else {
      WireCallsAre(calls[..|calls| - 1]);
    }
  }

  /** A printed chunk: one choice with the chunk's text, finish reason and calls, and the chunk's usage. */
  ghost predicate Shows(chunk: Chunk, d: StreamDelta, role: string) {
    && |chunk.choices| == 1
    && chunk.usage == d.usage
    && var c := chunk.choices[0];
       && c.role == role && c.content == d.delta && c.finishReason == d.finishReason && c.reasoning == ""
       && |c.fragments| == |d.toolCalls|
       && forall k :: 0 <= k < |d.toolCalls| ==>
            c.fragments[k] == Fragment(0, d.toolCalls[k].id, d.toolCalls[k].name, d.toolCalls[k].arguments)
  }

  /** Each chunk of a run is printed as itself; only the very first of a response carries the role. */
  lemma {:induction false} OnlyFirstHasRole(first: bool, deltas: seq<StreamDelta>)
    ensures |ChunksOf(first, deltas)| == |deltas|
    ensures forall i :: 0 <= i < |deltas| ==>
              Shows(ChunksOf(first, deltas)[i], deltas[i], if first && i == 0 then "assistant" else "")
  {
    ChunksAre(first, deltas);
    forall i | 0 <= i < |deltas|
      ensures Shows(ChunksOf(first, deltas)[i], deltas[i], if first && i == 0 then "assistant" else "")
    {
      WireCallsAre(deltas[i].toolCalls);
    }
  }

  lemma {:induction false} FramesAre(head: Head, chunks: seq<Chunk>)
    ensures |Frames(head, chunks)| == |chunks|
    ensures forall i :: 0 <= i < |chunks| ==> Frames(head, chunks)[i] == ChunkFrame(head, chunks[i])
  {
    if chunks == [] {
    } else {
      FramesAre(head, chunks[..|chunks| - 1]);
    }
  }

  // ---- reading the chunks back ----------------------------------------------------------------

  /** Tool calls belong to the final chunk. */
  ghost predicate CallsComeLast(deltas: seq<StreamDelta>)
    requires deltas != []
  {
    forall i :: 0 <= i < |deltas| - 1 ==> deltas[i].toolCalls == []
  }

  lemma {:induction false} ItemsSnoc(first: bool, before: seq<StreamDelta>, d: StreamDelta)
    ensures AllGood(ChunksOf(first, before + [d])) ==
            AllGood(ChunksOf(first, before)) + [Good(ChunkOf(first && before == [], d))]
  {
    assert (before + [d])[..|before|] == before;
    GoodNext(ChunksOf(first, before), ChunkOf(first && before == [], d));
  }

  lemma {:induction false} ReadBackText(first: bool, deltas: seq<StreamDelta>)
    ensures var items := AllGood(ChunksOf(first, deltas));
            ContentOf(items) == Texts(deltas) && ReasoningOf(items) == ""
  {
    if deltas == [] {
    } else {
      var before, d := deltas[..|deltas| - 1], deltas[|deltas| - 1];
      assert deltas == before + [d];
      ReadBackText(first, before);
      TextsAppend(before, [d]);
      ItemsSnoc(first, before, d);
      var item := Good(ChunkOf(first && before == [], d));
      ItemsNext(AllGood(ChunksOf(first, before)), item);
      assert FirstOf(item).content == d.delta && FirstOf(item).reasoning == "";
      assert Texts([d]) == if d.delta == "" then [] else [d.delta];
    }
  }

  lemma {:induction false} FragmentsSnoc(first: bool, before: seq<StreamDelta>, d: StreamDelta)
    ensures FragmentsOf(AllGood(ChunksOf(first, before + [d]))) ==
            FragmentsOf(AllGood(ChunksOf(first, before))) + WireCalls(d.toolCalls)
  {
    ItemsSnoc(first, before, d);
    ItemsNext(AllGood(ChunksOf(first, before)), Good(ChunkOf(first && before == [], d)));
  }

  lemma {:induction false} NoFragments(first: bool, deltas: seq<StreamDelta>)
    requires forall i :: 0 <= i < |deltas| ==> deltas[i].toolCalls == []
    ensures FragmentsOf(AllGood(ChunksOf(first, deltas))) == []
  {
    if deltas == [] {
    } else {
      var before, d := deltas[..|deltas| - 1], deltas[|deltas| - 1];
      assert deltas == before + [d];
      FragmentsSnoc(first, before, d);
      NoFragments(first, before);
    }
  }

  lemma {:induction false} ReadBackCalls(first: bool, deltas: seq<StreamDelta>)
    requires deltas != [] && CallsComeLast(deltas)
    ensures FragmentsOf(AllGood(ChunksOf(first, deltas))) == WireCalls(deltas[|deltas| - 1].toolCalls)
  {
    var before, d := deltas[..|deltas| - 1], deltas[|deltas| - 1];
    assert deltas == before + [d];
    FragmentsSnoc(first, before, d);
    NoFragments(first, before);
    assert [] + WireCalls(d.toolCalls) == WireCalls(d.toolCalls);
  }

  lemma {:induction false} GoodNext(chunks: seq<Chunk>, c: Chunk)
    ensures AllGood(chunks + [c]) == AllGood(chunks) + [Good(c)]
  {
    assert (chunks + [c])[..|chunks|] == chunks;
  }

  lemma {:induction false} WireCallsAt(calls: seq<ToolCall>)
    ensures At(WireCalls(calls), 0) == WireCalls(calls)
    ensures Indices(WireCalls(calls)) == if calls == [] then {} else {0}
    ensures |WireCalls(calls)| == |calls|
  {
    if calls == [] {
    } else {
      var before, last := calls[..|calls| - 1], calls[|calls| - 1];
      WireCallsAt(before);
      AtNext(WireCalls(before), Fragment(0, last.id, last.name, last.arguments), 0);
    }
  }

  lemma {:induction false} SortedSingleton(x: int)
    ensures Sorted({x}) == [x] && Sorted({}) == []
  {
    assert Elements([x]) == {x};
    AscendingIsUnique(Sorted({x}), [x]);
  }

  lemma {:induction false} AllWithArgumentsLength(calls: seq<ToolCall>)
    ensures |AllWithArguments(calls)| == |calls|
  {
    if calls == [] {
    } else {
      AllWithArgumentsLength(calls[1..]);
    }
  }

  /** Calls on the wire are read as one. */
  lemma {:induction false} WireCallsMerge(calls: seq<ToolCall>)
    requires calls != []
    ensures Calls(WireCalls(calls)) == [CallOf(Summary(WireCalls(calls)))]
  {
    var fragments := WireCalls(calls);
    WireCallsAt(calls);
    SortedSingleton(0);
    assert CallsAt(fragments, []) == [];
    CallsAtNext(fragments, [], 0);
    assert [] + [0] == [0];
    assert [] + [CallOf(Summary(fragments))] == [CallOf(Summary(fragments))];
  }

  lemma {:induction false} OneCallSurvives(call: ToolCall)
    ensures CallOf(Summary(WireCalls([call]))) == WithArguments(call)
    ensures AllWithArguments([call]) == [WithArguments(call)]
  {
    var f := Fragment(0, call.id, call.name, call.arguments);
    assert [call][..0] == [] && [call][1..] == [];
    assert [] + [f] == [f] && "" + call.arguments == call.arguments;
    SummaryNext([], f);
    PlusNothing([WithArguments(call)]);
  }

  /**
   * The calls survive the OpenAI wire, with empty arguments read as an empty object, exactly when there is at most
   * one of them; several calls are merged into one.
   */
  lemma {:induction false} CallsRoundTrip(calls: seq<ToolCall>)
    ensures Calls(WireCalls(calls)) == AllWithArguments(calls) <==> |calls| <= 1
    ensures |Calls(WireCalls(calls))| == if calls == [] then 0 else 1
  {
    AllWithArgumentsLength(calls);
    if calls == [] {
      SortedSingleton(0);
      assert Indices(WireCalls(calls)) == {};
      assert Calls(WireCalls(calls)) == [];
    } else {
      WireCallsMerge(calls);
      if |calls| == 1 {
        assert calls == [calls[0]];
        OneCallSurvives(calls[0]);
      }
    }
  }

  /**
   * The OpenAI wire round trip: a finished run printed and read back gives its non-empty texts in order and one final
   * chunk with the same finish reason and usage; only the reasoning is not printed.
   */
  lemma {:induction false} ChunkRoundTrip(deltas: seq<StreamDelta>, rest: seq<Item>, scanFailed: bool)
    requires Finished(deltas) && CallsComeLast(deltas)
    ensures var last := deltas[|deltas| - 1];
            Consume(AllGood(ChunksOf(true, deltas)) + rest, scanFailed) ==
            Reading(TextDeltas(Texts(deltas))
                    + [StreamDelta("", last.finishReason, last.usage, Calls(WireCalls(last.toolCalls)), "")], false)
  {
    var chunks, last := ChunksOf(true, deltas), deltas[|deltas| - 1];
    ChunksClose(deltas);
    ClosedStream(chunks, last.finishReason, last.usage, rest, scanFailed);
    ReadBackText(true, deltas);
    ReadBackCalls(true, deltas);
  }

  lemma {:induction false} ChunksClose(deltas: seq<StreamDelta>)
    requires Finished(deltas)
    ensures Closes(ChunksOf(true, deltas), deltas[|deltas| - 1].finishReason, deltas[|deltas| - 1].usage)
  {
    ChunksAre(true, deltas);
    forall i | 0 <= i < |deltas| - 1
      ensures First(ChunksOf(true, deltas)[i]).finishReason == ""
    {
      assert deltas[..|deltas| - 1][i] == deltas[i];
    }
  }

  // ---- any run --------------------------------------------------------------------------------

  lemma {:induction false} UnfinishedGoes(first: bool, deltas: seq<StreamDelta>)
    requires Unfinished(deltas)
    ensures Going(AllGood(ChunksOf(first, deltas)))
  {
    var chunks := ChunksOf(first, deltas);
    AllGoodItems(chunks);
    ChunksAre(first, deltas);
    assert forall i :: 0 <= i < |deltas| ==> deltas[i] in deltas;
  }

  /** How many chunks precede the first with a finish reason. */
  function FirstFinish(deltas: seq<StreamDelta>): (k: nat)
    ensures k <= |deltas| && Unfinished(deltas[..k])
    ensures k < |deltas| ==> deltas[k].finishReason != ""
  {
    if deltas == [] || deltas[0].finishReason != "" then 0
    else
      var k := 1 + FirstFinish(deltas[1..]);
      assert forall d :: d in deltas[..k] ==> d == deltas[0] || d in deltas[1..][..k - 1];
      k
  }

  lemma {:induction false} NoFinishBefore(deltas: seq<StreamDelta>, k: nat)
    requires k <= |deltas| && Unfinished(deltas[..k])
    ensures forall i :: 0 <= i < k ==> deltas[i].finishReason == ""
  {
    forall i | 0 <= i < k
      ensures deltas[i].finishReason == ""
    {
      assert deltas[..k][i] in deltas[..k];
    }
  }

  lemma {:induction false} FirstFinishIs(deltas: seq<StreamDelta>, k: nat)
    requires k <= |deltas| && Unfinished(deltas[..k]) && (k < |deltas| ==> deltas[k].finishReason != "")
    ensures FirstFinish(deltas) == k
  {
    NoFinishBefore(deltas, k);
    NoFinishBefore(deltas, FirstFinish(deltas));
  }

  /** All calls of a run, as they are printed. */
  function WireFragments(deltas: seq<StreamDelta>): seq<Fragment> {
    if deltas == [] then []
    else WireFragments(deltas[..|deltas| - 1]) + WireCalls(deltas[|deltas| - 1].toolCalls)
  }

  ghost function ClosingChunk(finish: string, usage: Option<Usage>, deltas: seq<StreamDelta>): StreamDelta {
    StreamDelta("", finish, usage, Calls(WireFragments(deltas)), "")
  }

  /**
   * What reading any printed run gives back: its non-empty texts up to the first chunk with a finish reason, and that
   * chunk with all calls so far; without one, all texts, and a chunk that says "stop" only if there are calls.
   */
  ghost function Heard(deltas: seq<StreamDelta>): seq<StreamDelta> {
    var k := FirstFinish(deltas);
    if k < |deltas| then
      TextDeltas(Texts(deltas[..k + 1])) + [ClosingChunk(deltas[k].finishReason, deltas[k].usage, deltas[..k + 1])]
    else TextDeltas(Texts(deltas)) + if WireFragments(deltas) == [] then [] else [ClosingChunk("stop", None, deltas)]
  }

  lemma {:induction false} FragmentsAre(first: bool, deltas: seq<StreamDelta>)
    ensures FragmentsOf(AllGood(ChunksOf(first, deltas))) == WireFragments(deltas)
  {
    if deltas == [] {
    } else {
      var before, d := deltas[..|deltas| - 1], deltas[|deltas| - 1];
      assert deltas == before + [d];
      FragmentsAre(first, before);
      FragmentsSnoc(first, before, d);
    }
  }

  /** What is printed after a run is read after it. */
  lemma {:induction false} ItemsSplit(first: bool, a: seq<StreamDelta>, b: seq<StreamDelta>) returns (rest: seq<Item>)
    ensures AllGood(ChunksOf(first, a + b)) == AllGood(ChunksOf(first, a)) + rest
    decreases |b|
  {
    var items := AllGood(ChunksOf(first, a));
    if b == [] {
      rest := [];
      assert a + b == a && items + rest == items;
    } else {
      var init, d := b[..|b| - 1], b[|b| - 1];
      rest := ItemsSplit(first, a, init);
      assert a + b == (a + init) + [d];
      ItemsSnoc(first, a + init, d);
      var item := Good(ChunkOf(first && a + init == [], d));
      Regroup(items, rest, [item]);
      rest := rest + [item];
    }
  }

  lemma {:induction false} ClosedIsHeard(closed: seq<StreamDelta>, more: seq<StreamDelta>, scanFailed: bool)
    requires Finished(closed)
    ensures var last := closed[|closed| - 1];
            Consume(AllGood(ChunksOf(true, closed + more)) + [Done], scanFailed) ==
            Reading(TextDeltas(Texts(closed)) + [ClosingChunk(last.finishReason, last.usage, closed)], false)
  {
    var chunks, last := ChunksOf(true, closed), closed[|closed| - 1];
    var rest := ItemsSplit(true, closed, more);
    ChunksClose(closed);
    ClosedStream(chunks, last.finishReason, last.usage, rest + [Done], scanFailed);
    Regroup(AllGood(chunks), rest, [Done]);
    ReadBackText(true, closed);
    FragmentsAre(true, closed);
  }

  lemma {:induction false} UnfinishedIsHeard(deltas: seq<StreamDelta>, scanFailed: bool)
    requires Unfinished(deltas)
    ensures Consume(AllGood(ChunksOf(true, deltas)) + [Done], scanFailed) ==
            Reading(TextDeltas(Texts(deltas))
                    + if WireFragments(deltas) == [] then [] else [ClosingChunk("stop", None, deltas)], false)
  {
    var items := AllGood(ChunksOf(true, deltas));
    UnfinishedGoes(true, deltas);
    LengthNext(items, Done);
    ReadBackText(true, deltas);
    FragmentsAre(true, deltas);
    assert Consume(items + [Done], scanFailed) == Ended(items, Done);
  }

  /** The OpenAI wire, for every run of chunks closed by the done frame: what is read is exactly `Heard`. */
  lemma {:induction false} RunIsHeard(deltas: seq<StreamDelta>, scanFailed: bool)
    ensures Consume(AllGood(ChunksOf(true, deltas)) + [Done], scanFailed) == Reading(Heard(deltas), false)
  {
    var k := FirstFinish(deltas);
    if k < |deltas| {
      var closed, more := deltas[..k + 1], deltas[k + 1..];
      assert closed + more == deltas && closed[|closed| - 1] == deltas[k];
      assert Finished(closed) by {
        assert closed[..|closed| - 1] == deltas[..k];
      }
      ClosedIsHeard(closed, more, scanFailed);
    } else {
      assert deltas[..k] == deltas;
      UnfinishedIsHeard(deltas, scanFailed);
    }
  }

  /** For a finished run that is its non-empty texts and its final chunk. */
  lemma {:induction false} HeardFinished(deltas: seq<StreamDelta>)
    requires Finished(deltas) && CallsComeLast(deltas)
    ensures var last := deltas[|deltas| - 1];
            Heard(deltas) ==
            TextDeltas(Texts(deltas))
            + [StreamDelta("", last.finishReason, last.usage, Calls(WireCalls(last.toolCalls)), "")]
  {
    var n := |deltas| - 1;
    FirstFinishIs(deltas, n);
    assert deltas[..n + 1] == deltas;
    FragmentsAre(true, deltas);
    ReadBackCalls(true, deltas);
  }

  // ---- through the text -----------------------------------------------------------------------

  /** The text of one data frame. */
  function DataText(payload: string): string {
    Terminated("data: " + payload, Terminated("", ""))
  }

  function PayloadText(f: Frame, encode: (Head, Chunk) -> string, report: string -> string): string {
    match f
    case ChunkFrame(head, chunk) => encode(head, chunk)
    case ErrorFrame(message) => report(message)
    case DoneFrame => "[DONE]"
  }

  function FramesText(frames: seq<Frame>, encode: (Head, Chunk) -> string, report: string -> string): string {
    if frames == [] then ""
    else DataText(PayloadText(frames[0], encode, report)) + FramesText(frames[1..], encode, report)
  }

  /** A payload without choices, which is all a reader makes of an error report. */
  const NO_CHOICES := Chunk([], None)

  predicate Payload(text: string) {
    Clean(text) && text != "" && text != "[DONE]"
  }

  /** Payloads are single non-empty lines without outer blanks; decoding undoes the encoding of a chunk. */
  ghost predicate Codec(encode: (Head, Chunk) -> string, report: string -> string, decode: string -> Option<Chunk>) {
    && (forall h, c :: Payload(encode(h, c)) && decode(encode(h, c)) == Some(c))
    && (forall m :: Payload(report(m)) && decode(report(m)) == Some(NO_CHOICES))
  }

  function FrameItem(f: Frame): Item {
    match f
    case ChunkFrame(_, chunk) => Good(chunk)
    case ErrorFrame(_) => Good(NO_CHOICES)
    case DoneFrame => Done
  }

  function FrameItems(frames: seq<Frame>): seq<Item> {
    if frames == [] then [] else [FrameItem(frames[0])] + FrameItems(frames[1..])
  }

  lemma {:induction false} FrameItemsAppend(a: seq<Frame>, b: seq<Frame>)
    ensures FrameItems(a + b) == FrameItems(a) + FrameItems(b)
  {
    if a == [] {
      assert a + b == b;
    } else {
      assert (a + b)[1..] == a[1..] + b;
      FrameItemsAppend(a[1..], b);
    }
  }

  lemma {:induction false} ChunkItems(head: Head, chunks: seq<Chunk>)
    ensures FrameItems(Frames(head, chunks)) == AllGood(chunks)
  {
    if chunks == [] {
    } else {
      var before, c := chunks[..|chunks| - 1], chunks[|chunks| - 1];
      ChunkItems(head, before);
      FrameItemsAppend(Frames(head, before), [ChunkFrame(head, c)]);
      assert [ChunkFrame(head, c)][1..] == [];
    }
  }

  lemma {:induction false} DataLines(payload: string, rest: string)
    requires Clean(payload) && payload != ""
    ensures Lines(DataText(payload) + rest) == ["data: " + payload, ""] + Lines(rest)
    ensures PayloadOf("data: " + payload) == Some(payload)
  {
    var line := "data: " + payload;
    FieldValue("data:", payload);
    assert line == "data:" + " " + payload && line[5..] == " " + payload;
    assert DataText(payload) + rest == Terminated(line, Terminated("", rest));
    LinesCons(line, Terminated("", rest));
    LinesCons("", rest);
  }

  lemma {:induction false} LineItems(line: string, payload: string, lines: seq<string>, decode: string -> Option<Chunk>)
    requires PayloadOf(line) == Some(payload)
    ensures Items([line, ""] + lines, decode) == [ItemOf(payload, decode)] + Items(lines, decode)
  {
    assert PayloadOf("") == None;
    LinesNext([], line, decode);
    LinesNext([line], "", decode);
    assert [] + [line] == [line] && [line] + [""] == [line, ""];
    ItemsAppend([line, ""], lines, decode);
  }

  lemma {:induction false} DataItems(payload: string, rest: string, decode: string -> Option<Chunk>)
    requires Clean(payload) && payload != ""
    ensures Items(Lines(DataText(payload) + rest), decode) == [ItemOf(payload, decode)] + Items(Lines(rest), decode)
  {
    DataLines(payload, rest);
    LineItems("data: " + payload, payload, Lines(rest), decode);
  }

  /** The printed frames are read as their payloads. */
  lemma {:induction false} FramesTextItems(frames: seq<Frame>, encode: (Head, Chunk) -> string,
                                           report: string -> string, decode: string -> Option<Chunk>)
    requires Codec(encode, report, decode)
    ensures Items(Lines(FramesText(frames, encode, report)), decode) == FrameItems(frames)
  {
    if frames == [] {
    } else {
      FrameDecodes(frames[0], encode, report, decode);
      DataItems(PayloadText(frames[0], encode, report), FramesText(frames[1..], encode, report), decode);
      FramesTextItems(frames[1..], encode, report, decode);
    }
  }

  lemma {:induction false} FrameDecodes(f: Frame, encode: (Head, Chunk) -> string, report: string -> string,
                                        decode: string -> Option<Chunk>)
    requires Codec(encode, report, decode)
    ensures var payload := PayloadText(f, encode, report);
            Clean(payload) && payload != "" && ItemOf(payload, decode) == FrameItem(f)
  {
    match f
    case ChunkFrame(head, chunk) => assert Payload(encode(head, chunk));
    case ErrorFrame(message) => assert Payload(report(message));
    case DoneFrame => assert Clean("[DONE]");
  }

  /** The same over the printed text, whether or not the scanner fails after it. */
  lemma {:induction false} TextRoundTrip(head: Head, deltas: seq<StreamDelta>, scanFailed: bool,
                                         encode: (Head, Chunk) -> string, report: string -> string,
                                         decode: string -> Option<Chunk>)
    requires Codec(encode, report, decode)
    ensures var text := FramesText(Frames(head, ChunksOf(true, deltas)) + [DoneFrame], encode, report);
            Consume(Items(Lines(text), decode), scanFailed) == Reading(Heard(deltas), false)
  {
    var frames := Frames(head, ChunksOf(true, deltas));
    FramesTextItems(frames + [DoneFrame], encode, report, decode);
    FrameItemsAppend(frames, [DoneFrame]);
    ChunkItems(head, ChunksOf(true, deltas));
    assert [DoneFrame][1..] == [] && FrameItems([DoneFrame]) == [Done];
    RunIsHeard(deltas, scanFailed);
  }

  // ---- a stream that says nothing -------------------------------------------------------------

  /** Chunks without text, calls or a finish reason. */
  ghost predicate Blank(deltas: seq<StreamDelta>) {
    forall d :: d in deltas ==> d.delta == "" && d.toolCalls == [] && d.finishReason == ""
  }

  lemma {:induction false} NoTextsIff(deltas: seq<StreamDelta>)
    ensures Texts(deltas) == [] <==> forall d :: d in deltas ==> d.delta == ""
  {
    if deltas == [] {
    } else {
      NoTextsIff(deltas[1..]);
      assert forall d :: d in deltas <==> d == deltas[0] || d in deltas[1..];
    }
  }

  lemma {:induction false} NoFragmentsIff(first: bool, deltas: seq<StreamDelta>)
    ensures FragmentsOf(AllGood(ChunksOf(first, deltas))) == [] <==> forall d :: d in deltas ==> d.toolCalls == []
  {
    if deltas == [] {
    } else {
      var before, d := deltas[..|deltas| - 1], deltas[|deltas| - 1];
      assert deltas == before + [d];
      NoFragmentsIff(first, before);
      FragmentsSnoc(first, before, d);
      WireCallsAt(d.toolCalls);
      assert forall x :: x in deltas <==> x in before || x == d;
    }
  }

  /** A stream of chunks closed by `[DONE]` is read as nothing at all exactly when its chunks are blank. */
  lemma {:induction false} SilentIffBlank(deltas: seq<StreamDelta>, scanFailed: bool)
    ensures Consume(AllGood(ChunksOf(true, deltas)) + [Done], scanFailed) == Reading([], false) <==> Blank(deltas)
  {
    if Unfinished(deltas) {
      UnfinishedGoes(true, deltas);
      ReadBackText(true, deltas);
      NoTextsIff(deltas);
      NoFragmentsIff(true, deltas);
      DoneIsSilent(AllGood(ChunksOf(true, deltas)), scanFailed);
    } else {
      FinishIsHeard(deltas, scanFailed);
    }
  }

  lemma {:induction false} FinishIsHeard(deltas: seq<StreamDelta>, scanFailed: bool)
    requires !Unfinished(deltas)
    ensures Consume(AllGood(ChunksOf(true, deltas)) + [Done], scanFailed).emitted != []
  {
    var chunks, items := ChunksOf(true, deltas), AllGood(ChunksOf(true, deltas)) + [Done];
    AllGoodItems(chunks);
    ChunksAre(true, deltas);
    var d :| d in deltas && d.finishReason != "";
    var i :| 0 <= i < |deltas| && deltas[i] == d;
    assert items[i] == Good(chunks[i]) && !Continues(items[i]);
    var k := Length(items);
    assert k <= i && items[k] == Good(chunks[k]);
    assert Consume(items, scanFailed) == Ended(items[..k], Good(chunks[k]));
    EndedGood(items[..k], chunks[k]);
  }
}
