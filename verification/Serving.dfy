/** The streaming endpoints as a whole: a request's run, and what its client reads. */
module Serving {
  import opened Chat
  import opened Capture
  import opened Collections
  import opened Orchestration
  import Wire = AnthropicWire
  import AW = AnthropicWriter
  import Grammar = AnthropicGrammar
  import Reader = AnthropicReader
  import Trip = AnthropicRoundTrip
  import OW = OpenAIWriter
  import OR = OpenAIReader
  import OC = OpenAIComplete
  import O = Orchestration
  import SR = StreamRuns
  import opened Provider
  import opened EventStream

  const DOWN := "all model candidates are down"
  const FAILED := "all model candidates failed"
  const TOOLS_FAILED := "tool execution failed: "

  type Result = Option<Served<Output>>

  /** No candidate served, or its tool loop failed: the stream only reports an error. */
  predicate Failed(cands: seq<Candidate>, result: Result) {
    cands == [] || result.None? || result.value.value.ToolsFailed?
  }

  function ToolsComplaint(s: Setting, error: Failure): string {
    TOOLS_FAILED + s.describe(error)
  }

  function Complaint(s: Setting, cands: seq<Candidate>, result: Result): string
    requires Failed(cands, result)
  {
    if cands == [] then DOWN
    else if result.None? then FAILED
    else ToolsComplaint(s, result.value.value.error)
  }

  /** The chunks an OpenAI stream that did not fail is made of. */
  function OpenAIChunks(output: Output): seq<StreamDelta>
    requires !output.ToolsFailed?
  {
    match output
    case Replay(deltas) => deltas
    case Burst(resp) => OW.BurstDeltas(resp)
  }

  /** The frames of what a served stream comes to. */
  function OutputFrames(s: Setting, head: OW.Head, output: Output): seq<OW.Frame> {
    if output.ToolsFailed? then [OW.ErrorFrame(ToolsComplaint(s, output.error))]
    else OW.Frames(head, OW.ChunksOf(true, OpenAIChunks(output)))
  }

  /** The frames of an OpenAI stream; every stream is closed by the done frame. */
  function OpenAIFrames(s: Setting, id: string, created: int, cands: seq<Candidate>, result: Result): seq<OW.Frame> {
    (if cands == [] then [OW.ErrorFrame(DOWN)]
     else if result.None? then [OW.ErrorFrame(FAILED)]
     else OutputFrames(s, OW.Head(id, created, result.value.cand.model), result.value.value))
    + [OW.DoneFrame]
  }

  method WriteOutput(s: Setting, sw: OW.SSEWriter, model: string, output: Output)
    requires sw.first
    modifies sw
    ensures sw.out == old(sw.out) + OutputFrames(s, sw.HeadFor(model), output)
  {
    match output {
      case Replay(deltas) => sw.Replay(model, deltas);
      case Burst(resp) => sw.WriteResponseBurst(model, resp);
      case ToolsFailed(error) => sw.WriteError(ToolsComplaint(s, error));
    }
  }

  method StreamCompletion(server: Server, sw: OW.SSEWriter, cands: seq<Candidate>)
    requires sw.first && sw.out == []
    modifies server, sw
    ensures server.View() == Stream(server.s, old(server.View()), cands, OpenAI).st
    ensures sw.out == OpenAIFrames(server.s, sw.id, sw.created, cands,
                                   Stream(server.s, old(server.View()), cands, OpenAI).value)
  {
    if |cands| == 0 {
      sw.WriteError(DOWN);
      sw.WriteDone();
      return;
    }
    var result := server.RunStreamCandidates(cands);
    if result.None? {
      sw.WriteError(FAILED);
    } else {
      WriteOutput(server.s, sw, result.value.cand.model, result.value.value);
    }
    sw.WriteDone();
  }

  /** The events of what a served stream comes to. */
  function OutputEvents(s: Setting, output: Output): seq<Wire.Event> {
    match output
    case Replay(deltas) => AW.EmitAll(AW.FRESH, deltas).events
    case Burst(resp) => AW.Burst(AW.FRESH, resp)
    case ToolsFailed(error) => [Wire.ErrorEvent(ToolsComplaint(s, error)), Wire.MessageStop]
  }

  /** The events of an Anthropic stream. */
  function AnthropicEvents(s: Setting, cands: seq<Candidate>, result: Result): seq<Wire.Event> {
    if cands == [] then [Wire.ErrorEvent(DOWN), Wire.MessageStop]
    else if result.None? then [Wire.ErrorEvent(FAILED), Wire.MessageStop]
    else OutputEvents(s, result.value.value)
  }

  method EmitOutput(s: Setting, sw: AW.SSEWriter, output: Output)
    requires sw.View() == AW.FRESH && sw.out == []
    modifies sw
    ensures sw.out == OutputEvents(s, output)
  {
    match output {
      case Replay(deltas) => sw.Replay(deltas);
      case Burst(resp) => sw.WriteResponseBurst(resp);
      case ToolsFailed(error) =>
        sw.EmitError(ToolsComplaint(s, error));
        sw.EmitMessageStop();
    }
  }

  method AnthropicStream(server: Server, sw: AW.SSEWriter, cands: seq<Candidate>)
    requires sw.View() == AW.FRESH && sw.out == []
    modifies server, sw
    ensures server.View() == Stream(server.s, old(server.View()), cands, Anthropic).st
    ensures sw.out == AnthropicEvents(server.s, cands, Stream(server.s, old(server.View()), cands, Anthropic).value)
  {
    if |cands| == 0 {
      sw.EmitError(DOWN);
      sw.EmitMessageStop();
      return;
    }
    var result := server.RunAnthropicCandidates(cands);
    if result.None? {
      sw.EmitError(FAILED);
      sw.EmitMessageStop();
      return;
    }
    EmitOutput(server.s, sw, result.value.value);
  }

  // ---- what an Anthropic client reads ---------------------------------------------------------

  /** The chunks an Anthropic stream that did not fail is made of. */
  function AnthropicChunks(output: Output): seq<StreamDelta>
    requires !output.ToolsFailed?
  {
    match output
    case Replay(deltas) => deltas
    case Burst(resp) => [Grammar.AsDelta(resp)]
  }

  lemma {:induction false} OneChunk(d: StreamDelta)
    ensures AW.EmitAll(AW.FRESH, [d]).events == AW.Emit(AW.FRESH, d).events
  {
    assert [d][..0] == [];
  }

  lemma {:induction false} ServedEvents(s: Setting, cands: seq<Candidate>, result: Result)
    requires !Failed(cands, result)
    ensures AnthropicEvents(s, cands, result) == AW.EmitAll(AW.FRESH, AnthropicChunks(result.value.value)).events
  {
    match result.value.value
    case Replay(_) =>
    case Burst(resp) =>
      Grammar.BurstIsOneChunk(resp);
      OneChunk(Grammar.AsDelta(resp));
  }

  /**
   * End to end, for every served request: its Anthropic client reads exactly what `Heard` makes of the chunks served,
   * and no error; it is sent one complete well-formed event stream if and only if those chunks are closed.
   */
  lemma {:induction false} ClientReadsWhatWasServed(s: Setting, cands: seq<Candidate>, result: Result)
    requires !Failed(cands, result)
    ensures var events, chunks := AnthropicEvents(s, cands, result), AnthropicChunks(result.value.value);
            && Trip.Read(Reader.FRESH, events).emitted == Trip.Heard(chunks)
            && !Trip.Read(Reader.FRESH, events).failed
            && (Grammar.Recognise(Grammar.Start, events) == Some(Grammar.Done) <==> Grammar.Closed(chunks))
  {
    ServedEvents(s, cands, result);
    Grammar.CompleteIffClosed(AnthropicChunks(result.value.value));
    Trip.RunIsHeard(AnthropicChunks(result.value.value));
  }

  /** Chunks closed by a final one come back as they are: the non-empty texts, and the final chunk. */
  lemma {:induction false} ClientReadsFinished(s: Setting, cands: seq<Candidate>, result: Result)
    requires !Failed(cands, result) && Finished(AnthropicChunks(result.value.value))
    ensures var events, chunks := AnthropicEvents(s, cands, result), AnthropicChunks(result.value.value);
            && Grammar.Recognise(Grammar.Start, events) == Some(Grammar.Done)
            && Trip.Read(Reader.FRESH, events).emitted == Trip.Expected(chunks)
            && !Trip.Read(Reader.FRESH, events).failed
  {
    ServedEvents(s, cands, result);
    Grammar.FinishedRunsFollowGrammar(AnthropicChunks(result.value.value));
    Trip.EventRoundTrip(AnthropicChunks(result.value.value));
  }

  /** Chunks that never finish leave the client without an end: only their texts, and no message_stop. */
  lemma {:induction false} ClientReadsUnfinished(s: Setting, cands: seq<Candidate>, result: Result)
    requires !Failed(cands, result) && Unfinished(AnthropicChunks(result.value.value))
    ensures var events, chunks := AnthropicEvents(s, cands, result), AnthropicChunks(result.value.value);
            && Trip.Read(Reader.FRESH, events).emitted == Trip.TextsSeen(Texts(chunks))
            && !Trip.Read(Reader.FRESH, events).failed
            && Grammar.Recognise(Grammar.Start, events) !in {None, Some(Grammar.Done)}
  {
    var chunks := AnthropicChunks(result.value.value);
    ServedEvents(s, cands, result);
    Grammar.RunsAre(chunks);
    Trip.RunIsHeard(chunks);
    Trip.HeardUnfinished(chunks);
  }

  lemma {:induction false} ErrorIsRead(message: string)
    ensures Trip.Read(Reader.FRESH, [Wire.ErrorEvent(message), Wire.MessageStop]) ==
            Reader.Outcome(Reader.FRESH, [], true)
  {
    var error, stop := Wire.ErrorEvent(message), Wire.MessageStop;
    assert [error, stop] == [error] + [stop];
    Trip.WireAllAppend([error], [stop]);
    Trip.WireOne(error);
    Reader.FailureEnds(Reader.FRESH, Wire.OnWire(error), Trip.WireAll([stop]));
  }

  /** Without a candidate that serves, the client reads an error and no chunk at all. */
  lemma {:induction false} ClientReadsFailure(s: Setting, cands: seq<Candidate>, result: Result)
    requires Failed(cands, result)
    ensures Trip.Read(Reader.FRESH, AnthropicEvents(s, cands, result)) == Reader.Outcome(Reader.FRESH, [], true)
  {
    ErrorIsRead(Complaint(s, cands, result));
  }

  // ---- what an OpenAI client is sent ----------------------------------------------------------

  /** The frames print the chunks one by one, under this id, time and model, the first with the role. */
  ghost predicate Prints(frames: seq<OW.Frame>, id: string, created: int, model: string, deltas: seq<StreamDelta>) {
    && |frames| == |deltas|
    && forall i :: 0 <= i < |deltas| ==>
         && frames[i].ChunkFrame? && frames[i].head.id == id && frames[i].head.created == created
         && frames[i].head.model == model
         && OW.Shows(frames[i].chunk, deltas[i], if i == 0 then "assistant" else "")
  }

  lemma {:induction false} RunIsPrinted(head: OW.Head, deltas: seq<StreamDelta>)
    ensures Prints(OW.Frames(head, OW.ChunksOf(true, deltas)), head.id, head.created, head.model, deltas)
  {
    OW.OnlyFirstHasRole(true, deltas);
    OW.FramesAre(head, OW.ChunksOf(true, deltas));
  }

  /**
   * The whole OpenAI stream: a single error report, or a chunk for each captured one, or, of a completed response, its
   * text if it has any and a closing chunk; all chunks under the response's id and time and the model that served; and
   * the done frame.
   */
  lemma {:induction false} StreamIsPrinted(s: Setting, id: string, created: int, cands: seq<Candidate>, result: Result)
    ensures var frames := OpenAIFrames(s, id, created, cands, result);
            && frames != [] && frames[|frames| - 1] == OW.DoneFrame
            && var body := frames[..|frames| - 1];
               if cands == [] then body == [OW.ErrorFrame("all model candidates are down")]
               else if result.None? then body == [OW.ErrorFrame("all model candidates failed")]
               else
                 var model := result.value.cand.model;
                 match result.value.value
                 case Replay(deltas) => Prints(body, id, created, model, deltas)
                 case Burst(resp) =>
                   var usage := if resp.usage == Usage(0, 0, 0) then None else Some(resp.usage);
                   var last := StreamDelta("", resp.finishReason, usage, resp.toolCalls, "");
                   if resp.content == "" then Prints(body, id, created, model, [last])
                   else Prints(body, id, created, model, [StreamDelta(resp.content, "", None, [], ""), last])
                 case ToolsFailed(error) =>
                   body == [OW.ErrorFrame("tool execution failed: " + s.describe(error))]
  {
    var frames := OpenAIFrames(s, id, created, cands, result);
    if cands != [] && result.Some? {
      var head, output := OW.Head(id, created, result.value.cand.model), result.value.value;
      assert frames[..|frames| - 1] == OutputFrames(s, head, output);
      if !output.ToolsFailed? {
        RunIsPrinted(head, OpenAIChunks(output));
      }
      if output.Burst? {
        BurstIsTwoChunks(output.resp);
      }
    }
  }

  lemma {:induction false} BurstIsTwoChunks(resp: ChatResponse)
    ensures var usage := if resp.usage == Usage(0, 0, 0) then None else Some(resp.usage);
            var last := StreamDelta("", resp.finishReason, usage, resp.toolCalls, "");
            OW.BurstDeltas(resp) ==
            if resp.content == "" then [last] else [StreamDelta(resp.content, "", None, [], ""), last]
  {
  }

  /** And a failed Anthropic stream is an error event and a message_stop. */
  lemma {:induction false} FailureIsPrinted(s: Setting, cands: seq<Candidate>, result: Result)
    requires Failed(cands, result)
    ensures AnthropicEvents(s, cands, result) ==
            [Wire.ErrorEvent(if cands == [] then "all model candidates are down"
                             else if result.None? then "all model candidates failed"
                             else "tool execution failed: " + s.describe(result.value.value.error)),
             Wire.MessageStop]
  {
  }

  // ---- what an OpenAI client reads ------------------------------------------------------------

  lemma {:induction false} ReportItems(message: string)
    ensures OW.FrameItems([OW.ErrorFrame(message)] + [OW.DoneFrame]) == [OR.Good(OW.NO_CHOICES)] + [OR.Done]
  {
    OW.FrameItemsAppend([OW.ErrorFrame(message)], [OW.DoneFrame]);
    assert [OW.ErrorFrame(message)][1..] == [] && [OW.DoneFrame][1..] == [];
  }

  lemma {:induction false} ChunksItems(head: OW.Head, chunks: seq<OR.Chunk>)
    ensures OW.FrameItems(OW.Frames(head, chunks) + [OW.DoneFrame]) == OC.AllGood(chunks) + [OR.Done]
  {
    OW.FrameItemsAppend(OW.Frames(head, chunks), [OW.DoneFrame]);
    OW.ChunkItems(head, chunks);
    assert [OW.DoneFrame][1..] == [];
  }

  lemma {:induction false} ServedItems(s: Setting, id: string, created: int, cands: seq<Candidate>, result: Result)
    ensures OW.FrameItems(OpenAIFrames(s, id, created, cands, result)) ==
            (if Failed(cands, result) then [OR.Good(OW.NO_CHOICES)]
             else OC.AllGood(OW.ChunksOf(true, OpenAIChunks(result.value.value)))) + [OR.Done]
  {
    if Failed(cands, result) {
      ReportItems(Complaint(s, cands, result));
    } else {
      ChunksItems(OW.Head(id, created, result.value.cand.model), OW.ChunksOf(true, OpenAIChunks(result.value.value)));
    }
  }

  /**
   * End to end, for every served request: from the text of the stream its OpenAI client reads exactly what `Heard`
   * makes of the chunks served, and no error.
   */
  lemma {:induction false} OpenAIClientReadsWhatWasServed(
      s: Setting, id: string, created: int, cands: seq<Candidate>, result: Result, scanFailed: bool,
      encode: (OW.Head, OR.Chunk) -> string, report: string -> string, decode: string -> Option<OR.Chunk>)
    requires OW.Codec(encode, report, decode) && !Failed(cands, result)
    ensures var text := OW.FramesText(OpenAIFrames(s, id, created, cands, result), encode, report);
            OR.Consume(OR.Items(Lines(text), decode), scanFailed) ==
            Reading(OW.Heard(OpenAIChunks(result.value.value)), false)
  {
    OW.FramesTextItems(OpenAIFrames(s, id, created, cands, result), encode, report, decode);
    ServedItems(s, id, created, cands, result);
    OW.RunIsHeard(OpenAIChunks(result.value.value), scanFailed);
  }

  /** An error frame followed by the done frame is nothing to a reader: no chunk, and no error. */
  lemma {:induction false} ErrorIsSilent(scanFailed: bool)
    ensures OR.Consume([OR.Good(OW.NO_CHOICES)] + [OR.Done], scanFailed) == Reading([], false)
  {
    var error := OR.Good(OW.NO_CHOICES);
    OR.NoChoice([], OW.NO_CHOICES);
    assert [] + [error] == [error];
    OR.DoneIsSilent([error], scanFailed);
  }

  /**
   * A client that reads the stream as the router itself would cannot tell a failed request from a blank answer: it
   * reads nothing, and no error, exactly when the request failed or was served with blank chunks.
   */
  lemma {:induction false} SilentIffFailedOrBlank(
      s: Setting, id: string, created: int, cands: seq<Candidate>, result: Result, scanFailed: bool,
      encode: (OW.Head, OR.Chunk) -> string, report: string -> string, decode: string -> Option<OR.Chunk>)
    requires OW.Codec(encode, report, decode)
    ensures var text := OW.FramesText(OpenAIFrames(s, id, created, cands, result), encode, report);
            OR.Consume(OR.Items(Lines(text), decode), scanFailed) == Reading([], false) <==>
            Failed(cands, result) || OW.Blank(OpenAIChunks(result.value.value))
  {
    OW.FramesTextItems(OpenAIFrames(s, id, created, cands, result), encode, report, decode);
    ServedItems(s, id, created, cands, result);
    if Failed(cands, result) {
      ErrorIsSilent(scanFailed);
    } else {
      OW.SilentIffBlank(OpenAIChunks(result.value.value), scanFailed);
    }
  }

  // ---- a stream that broke off ----------------------------------------------------------------

  lemma {:induction false} OneText(text: string)
    requires text != ""
    ensures Texts([TextDelta(text)]) == [text]
    ensures TextDeltas([text]) == [TextDelta(text)]
    ensures Trip.TextsSeen([text]) == [Reader.TextSeen(text)]
  {
    var d := TextDelta(text);
    assert [d][1..] == [] && [text] + [] == [text];
    assert [text][..0] == [] && [text][0] == text;
    assert [] + [d] == [d] && [] + [Reader.TextSeen(text)] == [Reader.TextSeen(text)];
  }

  /** What either client makes of a single text that nothing follows. */
  lemma {:induction false} LoneText(text: string)
    requires text != ""
    ensures var events := AW.EmitAll(AW.FRESH, [TextDelta(text)]).events;
            && Grammar.Recognise(Grammar.Start, events) == Some(Grammar.TextFilled(0))
            && Trip.Read(Reader.FRESH, events).emitted == [Reader.TextSeen(text)]
            && !Trip.Read(Reader.FRESH, events).failed
    ensures OW.Heard([TextDelta(text)]) == [TextDelta(text)]
  {
    var d := TextDelta(text);
    OneText(text);
    assert [d][..0] == [] && [d][..1] == [d];
    OneChunkState(d);
    Grammar.RunsAre([d]);
    Trip.RunIsHeard([d]);
    Trip.HeardUnfinished([d]);
    OW.FirstFinishIs([d], 1);
    assert OW.WireFragments([d]) == [] + OW.WireCalls(d.toolCalls) == [];
    PlusNothing([d]);
  }

  lemma {:induction false} OneChunkState(d: StreamDelta)
    requires d.delta != "" && d.finishReason == ""
    ensures Grammar.PhaseOf(AW.EmitAll(AW.FRESH, [d]).st) == Grammar.TextFilled(0)
  {
    assert [d][..0] == [];
  }

  /**
   * A stream that broke off with an error after some text is served on either wire as if nothing had happened: the
   * Anthropic client is left inside an open text block, the OpenAI client sees a clean end without a finish reason.
   */
  lemma {:induction false} BrokenStreamIsServed(cand: Candidate, wire: O.Wire)
    ensures var capture := Captured([TextDelta("a")], Some(Transport));
            var s := SR.Streaming(cand.provider, {}, capture);
            var result := Stream(s, State([], [], true), [cand], wire).value;
            var events := AnthropicEvents(s, [cand], result);
            && result == Some(Served(cand, Replay(capture.deltas)))
            && Grammar.Recognise(Grammar.Start, events) == Some(Grammar.TextFilled(0))
            && Trip.Read(Reader.FRESH, events).emitted == [Reader.TextSeen("a")]
            && !Trip.Read(Reader.FRESH, events).failed
            && OW.Heard(OpenAIChunks(result.value.value)) == [TextDelta("a")]
  {
    SR.BrokenStreamIsCredited(cand, wire);
    LoneText("a");
  }
}
