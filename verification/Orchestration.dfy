/**
 * One request's run over its candidates: attempts, failover, and the internal tool loop.
 *
 * Everything the run does to the outside is an event of its log. Providers and tools answer arbitrarily: an answer is
 * any function of everything that happened before. `Complete` and `Stream` say what a run comes to; the `Server`
 * methods compute it step by step, and `OrchestrationRuns` proves what every run keeps.
 */
module Orchestration {
  import opened Chat
  import opened Collections
  import R = Routing
  import opened Capture

  const MAX_ATTEMPTS := 3
  const MAX_TOOL_ROUNDS := 5

  /** The two client-facing wires; only the OpenAI one retries a candidate. */
  datatype Wire = OpenAI | Anthropic

  datatype Request = Request(model: string, messages: seq<Message>, stream: bool)

  datatype Outcome = Ok(resp: ChatResponse) | Err(error: Failure)

  /** One buffered upstream stream attempt. */
  datatype Captured = Captured(deltas: seq<StreamDelta>, error: Option<Failure>) {
    predicate Delivered() { deltas != [] }

    predicate EndedInError() { exists d :: d in deltas && d.finishReason == "error" }

    predicate Clean() { error.None? && !EndedInError() }

    /** The attempt failed before it delivered anything. */
    predicate Empty() { error.Some? && !Delivered() }
  }

  type Candidate = R.Candidate

  datatype Event =
    | Called(cand: Candidate, req: Request, outcome: Outcome)
    | Streamed(cand: Candidate, req: Request, capture: Captured)
    | Executed(call: ToolCall, reasoning: string, result: string)
    | Remembered(calls: seq<ToolCall>, reasoning: string)
    | Cooled(cand: Candidate)
    | Credited(cand: Candidate)

  /** What surrounds a request: the known providers, the tools on either side, and how the outside answers. */
  datatype Setting = Setting(
    providers: set<string>,
    registered: set<string>,
    clientTools: set<string>,
    complete: (seq<Event>, Candidate, Request) -> Outcome,
    stream: (seq<Event>, Candidate, Request) -> Captured,
    tool: (seq<Event>, ToolCall) -> string,
    describe: Failure -> string)
  {
    predicate Owned(call: ToolCall) { call.name in registered && call.name !in clientTools }

    /** A batch is executed internally only as a whole. */
    predicate AllOwned(calls: seq<ToolCall>) { calls != [] && forall c :: c in calls ==> Owned(c) }
  }

  /** The request-scoped state. */
  datatype State = State(log: seq<Event>, messages: seq<Message>, stream: bool) {
    function Noted(e: Event): State { this.(log := log + [e]) }

    /** The reasoning of a response is cached under the calls it made. */
    function Remembering(resp: ChatResponse): State { Noted(Remembered(resp.toolCalls, resp.reasoning)) }

    function RequestTo(cand: Candidate): Request { Request(cand.model, messages, stream) }
  }

  datatype Step<T> = Step(st: State, value: T)

  // ---- completions ----------------------------------------------------------------------------

  function Call(s: Setting, st: State, cand: Candidate): Step<Outcome> {
    var outcome := s.complete(st.log, cand, st.RequestTo(cand));
    Step(st.Noted(Called(cand, st.RequestTo(cand), outcome)), outcome)
  }

  /** Up to `left` further attempts, until one succeeds. Later errors are not looked at again. */
  function Retry(s: Setting, st: State, cand: Candidate, left: nat): Step<Outcome>
    requires left > 0
    decreases left
  {
    var again := Call(s, st, cand);
    if again.value.Ok? || left == 1 then again else Retry(s, again.st, cand, left - 1)
  }

  function Attempts(s: Setting, st: State, cand: Candidate, wire: Wire): Step<Outcome> {
    var first := Call(s, st, cand);
    if wire.OpenAI? && first.value.Err? && first.value.error.Retryable()
    then Retry(s, first.st, cand, MAX_ATTEMPTS - 1)
    else first
  }

  /** The first attempt alone puts the candidate into cooldown. */
  predicate CoolsAtOnce(s: Setting, st: State, cand: Candidate, wire: Wire) {
    var first := Call(s, st, cand).value;
    first.Err? && (wire.Anthropic? || first.error.RateLimit?)
  }

  function PairOf(call: ToolCall, reasoning: string, result: string): seq<Message> {
    [Message(Assistant, "", "", [call], reasoning), Message(Tool, result, call.id, [], "")]
  }

  /** Every call of a batch is executed, and extends the conversation by itself and its result. */
  function Execute(s: Setting, st: State, reasoning: string, calls: seq<ToolCall>): State {
    if calls == [] then st
    else
      var before := Execute(s, st, reasoning, calls[..|calls| - 1]);
      var call := calls[|calls| - 1];
      var result := s.tool(before.log, call);
      before.Noted(Executed(call, reasoning, result)).(messages := before.messages + PairOf(call, reasoning, result))
  }

  /** One round of the tool loop: the batch is executed, and the conversation goes on. It is not streamed. */
  function Continue(s: Setting, st: State, cand: Candidate, resp: ChatResponse): Step<Outcome> {
    var next := Call(s, Execute(s, st, resp.reasoning, resp.toolCalls).(stream := false), cand);
    if next.value.Err? then next else Step(next.st.Remembering(next.value.resp), next.value)
  }

  /** The tool loop with `left` rounds to go. */
  function ToolLoop(s: Setting, st: State, cand: Candidate, resp: ChatResponse, left: nat): Step<Outcome>
    decreases left
  {
    if left == 0 then Step(st.Remembering(resp), Ok(resp))
    else if !s.AllOwned(resp.toolCalls) then Step(st, Ok(resp))
    else
      var next := Continue(s, st, cand, resp);
      if next.value.Err? then next else ToolLoop(s, next.st, cand, next.value.resp, left - 1)
  }

  /** The shared tail of a successful attempt. */
  function Finish(s: Setting, st: State, cand: Candidate, resp: ChatResponse): Step<Option<ChatResponse>> {
    var loop := ToolLoop(s, st.Remembering(resp), cand, resp, MAX_TOOL_ROUNDS);
    match loop.value
    case Err(_) => Step(loop.st.Noted(Cooled(cand)), None)
    case Ok(final) => Step(loop.st.Noted(Credited(cand)), Some(final))
  }

  function Try(s: Setting, st: State, cand: Candidate, wire: Wire): Step<Option<ChatResponse>> {
    if cand.provider !in s.providers then Step(st.Noted(Cooled(cand)), None)
    else
      var tried := Attempts(s, st, cand, wire);
      match tried.value
      case Ok(resp) => Finish(s, tried.st, cand, resp)
      case Err(_) => Step(if CoolsAtOnce(s, st, cand, wire) then tried.st.Noted(Cooled(cand)) else tried.st, None)
  }

  datatype Served<T> = Served(cand: Candidate, value: T)

  /** The first candidate that serves; None is answered with a 502. */
  function Complete(s: Setting, st: State, cands: seq<Candidate>, wire: Wire): Step<Option<Served<ChatResponse>>>
    decreases |cands|
  {
    if cands == [] then Step(st, None)
    else
      var tried := Try(s, st, cands[0], wire);
      if tried.value.Some? then Step(tried.st, Some(Served(cands[0], tried.value.value)))
      else Complete(s, tried.st, cands[1..], wire)
  }

  // ---- streams --------------------------------------------------------------------------------

  function Attempt(s: Setting, st: State, cand: Candidate): Step<Captured> {
    var capture := s.stream(st.log, cand, st.RequestTo(cand));
    Step(st.Noted(Streamed(cand, st.RequestTo(cand), capture)), capture)
  }

  /** Up to `left` further attempts while they fail empty. */
  function AttemptAgain(s: Setting, st: State, cand: Candidate, left: nat): Step<Captured>
    requires left > 0
    decreases left
  {
    var again := Attempt(s, st, cand);
    if !again.value.Empty() || left == 1 then again else AttemptAgain(s, again.st, cand, left - 1)
  }

  function StreamAttempts(s: Setting, st: State, cand: Candidate, wire: Wire): Step<Captured> {
    var first := Attempt(s, st, cand);
    if wire.OpenAI? && first.value.Empty() && first.value.error.value.Retryable()
    then AttemptAgain(s, first.st, cand, MAX_ATTEMPTS - 1)
    else first
  }

  predicate StreamCoolsAtOnce(s: Setting, st: State, cand: Candidate, wire: Wire) {
    var first := Attempt(s, st, cand).value;
    first.Empty() && (wire.Anthropic? || first.error.value.RateLimit?)
  }

  /** The attempts of one candidate; None when all of them failed empty. */
  function StreamTry(s: Setting, st: State, cand: Candidate, wire: Wire): Step<Option<Captured>> {
    if cand.provider !in s.providers then Step(st.Noted(Cooled(cand)), None)
    else
      var tried := StreamAttempts(s, st, cand, wire);
      if tried.value.Empty()
      then Step(if StreamCoolsAtOnce(s, st, cand, wire) then tried.st.Noted(Cooled(cand)) else tried.st, None)
      else Step(Judge(tried.st, cand, tried.value, wire), Some(tried.value))
  }

  /** How a delivered stream is recorded. */
  function Judge(st: State, cand: Candidate, capture: Captured, wire: Wire): State {
    if !capture.EndedInError() then st.Noted(Credited(cand))
    else if wire.Anthropic? then st.Noted(Cooled(cand))
    else st
  }

  /** What a buffered stream is served as. */
  datatype Output = Replay(deltas: seq<StreamDelta>) | Burst(resp: ChatResponse) | ToolsFailed(error: Failure)

  /** Only a clean stream whose calls are all the server's is not replayed as it arrived. */
  predicate Bursts(s: Setting, capture: Captured) {
    capture.Clean() && s.AllOwned(Collapse(capture.deltas).toolCalls)
  }

  function Serve(s: Setting, st: State, cand: Candidate, capture: Captured): Step<Output> {
    if !capture.Clean() then Step(st, Replay(capture.deltas))
    else
      var resp := Collapse(capture.deltas);
      var ready := st.Remembering(resp);
      if !s.AllOwned(resp.toolCalls) then Step(ready, Replay(capture.deltas))
      else
        var loop := ToolLoop(s, ready, cand, resp, MAX_TOOL_ROUNDS);
        Step(loop.st, if loop.value.Ok? then Burst(loop.value.resp) else ToolsFailed(loop.value.error))
  }

  function Stream(s: Setting, st: State, cands: seq<Candidate>, wire: Wire): Step<Option<Served<Output>>>
    decreases |cands|
  {
    if cands == [] then Step(st, None)
    else
      var tried := StreamTry(s, st, cands[0], wire);
      if tried.value.Some? then
        var served := Serve(s, tried.st, cands[0], tried.value.value);
        Step(served.st, Some(Served(cands[0], served.value)))
      else Stream(s, tried.st, cands[1..], wire)
  }

  // ---- the handlers ---------------------------------------------------------------------------

  class Server {
    const s: Setting
    var log: seq<Event>
    var messages: seq<Message>
    var stream: bool

    function View(): State
      reads this
    {
      State(log, messages, stream)
    }

    constructor (s: Setting, messages: seq<Message>, stream: bool)
      ensures this.s == s && View() == State([], messages, stream)
    {
      this.s, this.log, this.messages, this.stream := s, [], messages, stream;
    }

    method CallProvider(cand: Candidate) returns (outcome: Outcome)
      modifies this`log
      ensures Step(View(), outcome) == Call(s, old(View()), cand)
    {
      var req := Request(cand.model, messages, stream);
      outcome := s.complete(log, cand, req);
      log := log + [Called(cand, req, outcome)];
    }

    method RecordFailure(cand: Candidate)
      modifies this`log
      ensures View() == old(View()).Noted(Cooled(cand))
    {
      log := log + [Cooled(cand)];
    }

    method RecordSuccess(cand: Candidate)
      modifies this`log
      ensures View() == old(View()).Noted(Credited(cand))
    {
      log := log + [Credited(cand)];
    }

    method RememberReasoning(resp: ChatResponse)
      modifies this`log
      ensures View() == old(View()).Remembering(resp)
    {
      log := log + [Remembered(resp.toolCalls, resp.reasoning)];
    }

    method AllServerToolCalls(calls: seq<ToolCall>) returns (all: bool)
      ensures all == s.AllOwned(calls)
    {
      if |calls| == 0 {
        return false;
      }
      for i := 0 to |calls|
        invariant forall j :: 0 <= j < i ==> s.Owned(calls[j])
      {
        if !(calls[i].name in s.registered && calls[i].name !in s.clientTools) {
          assert calls[i] in calls && !s.Owned(calls[i]);
          return false;
        }
      }
      return true;
    }

    method ExecuteBatch(reasoning: string, calls: seq<ToolCall>)
      modifies this
      ensures View() == Execute(s, old(View()), reasoning, calls)
    {
      for i := 0 to |calls|
        invariant View() == Execute(s, old(View()), reasoning, calls[..i])
      {
        var tc := calls[i];
        assert calls[..i + 1][..i] == calls[..i];
        var out := s.tool(log, tc);
        log := log + [Executed(tc, reasoning, out)];
        messages := messages + [Message(Assistant, "", "", [tc], reasoning), Message(Tool, out, tc.id, [], "")];
      }
      WholePrefix(calls);
    }

    method ExecuteServerTools(cand: Candidate, first: ChatResponse) returns (outcome: Outcome)
      modifies this
      ensures Step(View(), outcome) == ToolLoop(s, old(View()), cand, first, MAX_TOOL_ROUNDS)
    {
      var resp := first;
      for i := 0 to MAX_TOOL_ROUNDS
        invariant ToolLoop(s, View(), cand, resp, MAX_TOOL_ROUNDS - i) ==
                  ToolLoop(s, old(View()), cand, first, MAX_TOOL_ROUNDS)
      {
        var all := AllServerToolCalls(resp.toolCalls);
        if !all {
          return Ok(resp);
        }
        ExecuteBatch(resp.reasoning, resp.toolCalls);
        stream := false;
        var next := CallProvider(cand);
        if next.Err? {
          return next;
        }
        resp := next.resp;
        RememberReasoning(resp);
      }
      RememberReasoning(resp);
      return Ok(resp);
    }

    method FinishCandidate(cand: Candidate, resp: ChatResponse) returns (served: Option<ChatResponse>)
      modifies this
      ensures Step(View(), served) == Finish(s, old(View()), cand, resp)
    {
      RememberReasoning(resp);
      var final := ExecuteServerTools(cand, resp);
      if final.Err? {
        RecordFailure(cand);
        return None;
      }
      RecordSuccess(cand);
      return Some(final.resp);
    }

    method RetryProvider(cand: Candidate, failed: Outcome) returns (outcome: Outcome)
      requires failed.Err?
      modifies this`log
      ensures Step(View(), outcome) == Retry(s, old(View()), cand, MAX_ATTEMPTS - 1)
    {
      outcome := failed;
      for attempt := 1 to MAX_ATTEMPTS
        invariant messages == old(messages) && stream == old(stream) && outcome.Err?
        invariant attempt == 1 ==> View() == old(View())
        invariant attempt < MAX_ATTEMPTS ==>
                    Retry(s, View(), cand, MAX_ATTEMPTS - attempt) == Retry(s, old(View()), cand, MAX_ATTEMPTS - 1)
        invariant attempt == MAX_ATTEMPTS ==>
                    Step(View(), outcome) == Retry(s, old(View()), cand, MAX_ATTEMPTS - 1)
      {
        outcome := CallProvider(cand);
        if outcome.Ok? {
          return outcome;
        }
      }
    }

    /** Serves an OpenAI completion. */
    method CompleteOpenAI(cands: seq<Candidate>) returns (served: Option<Served<ChatResponse>>)
      modifies this
      ensures Step(View(), served) == Complete(s, old(View()), cands, OpenAI)
    {
      for i := 0 to |cands|
        invariant Complete(s, View(), cands[i..], OpenAI) == Complete(s, old(View()), cands, OpenAI)
      {
        var cand := cands[i];
        assert cands[i..][0] == cand && cands[i..][1..] == cands[i + 1..];
        if cand.provider !in s.providers {
          RecordFailure(cand);
          continue;
        }
        var outcome := CallProvider(cand);
        if outcome.Err? {
          if outcome.error.RateLimit? {
            RecordFailure(cand);
            continue;
          }
          if !outcome.error.Retryable() {
            continue;
          }
          outcome := RetryProvider(cand, outcome);
          if outcome.Err? {
            continue;
          }
        }
        var final := FinishCandidate(cand, outcome.resp);
        if final.None? {
          continue;
        }
        return Some(Served(cand, final.value));
      }
      return None;
    }

    /** Serves an Anthropic completion: one attempt per candidate, and every failure is cooled. */
    method CompleteAnthropic(cands: seq<Candidate>) returns (served: Option<Served<ChatResponse>>)
      modifies this
      ensures Step(View(), served) == Complete(s, old(View()), cands, Anthropic)
    {
      for i := 0 to |cands|
        invariant Complete(s, View(), cands[i..], Anthropic) == Complete(s, old(View()), cands, Anthropic)
      {
        var cand := cands[i];
        assert cands[i..][0] == cand && cands[i..][1..] == cands[i + 1..];
        if cand.provider !in s.providers {
          RecordFailure(cand);
          continue;
        }
        var outcome := CallProvider(cand);
        if outcome.Err? {
          RecordFailure(cand);
          continue;
        }
        var final := FinishCandidate(cand, outcome.resp);
        if final.None? {
          continue;
        }
        return Some(Served(cand, final.value));
      }
      return None;
    }

    method CaptureStream(cand: Candidate) returns (capture: Captured)
      modifies this`log
      ensures Step(View(), capture) == Attempt(s, old(View()), cand)
    {
      var req := Request(cand.model, messages, stream);
      capture := s.stream(log, cand, req);
      log := log + [Streamed(cand, req, capture)];
    }

    method RetryStream(cand: Candidate, failed: Captured) returns (capture: Captured)
      requires failed.Empty()
      modifies this`log
      ensures Step(View(), capture) == AttemptAgain(s, old(View()), cand, MAX_ATTEMPTS - 1)
    {
      capture := failed;
      for attempt := 1 to MAX_ATTEMPTS
        invariant messages == old(messages) && stream == old(stream)
        invariant attempt == 1 ==> View() == old(View())
        invariant attempt < MAX_ATTEMPTS && capture.Empty() ==>
                    AttemptAgain(s, View(), cand, MAX_ATTEMPTS - attempt) ==
                    AttemptAgain(s, old(View()), cand, MAX_ATTEMPTS - 1)
        invariant attempt == MAX_ATTEMPTS || !capture.Empty() ==>
                    Step(View(), capture) == AttemptAgain(s, old(View()), cand, MAX_ATTEMPTS - 1)
      {
        if capture.error.None? || capture.Delivered() {
          return capture;
        }
        capture := CaptureStream(cand);
      }
    }

    /** The attempts of one candidate on the OpenAI wire; None when the loop must fail over. */
    method StreamWithRetry(cand: Candidate) returns (served: Option<Captured>)
      requires cand.provider in s.providers
      modifies this`log
      ensures served.None? ==> Step(View(), served) == StreamTry(s, old(View()), cand, OpenAI)
      ensures served.Some? ==>
                Step(Judge(View(), cand, served.value, OpenAI), served) == StreamTry(s, old(View()), cand, OpenAI)
    {
      var capture := CaptureStream(cand);
      if capture.error.None? || capture.Delivered() {
        return Some(capture);
      }
      if capture.error.value.RateLimit? {
        RecordFailure(cand);
        return None;
      }
      if !capture.error.value.Retryable() {
        return None;
      }
      capture := RetryStream(cand, capture);
      if capture.error.Some? && !capture.Delivered() {
        return None;
      }
      return Some(capture);
    }

    method ServeCapture(cand: Candidate, capture: Captured) returns (output: Output)
      modifies this
      ensures Step(View(), output) == Serve(s, old(View()), cand, capture)
    {
      if capture.error.Some? || capture.EndedInError() {
        return Replay(capture.deltas);
      }
      var resp := ResponseFromDeltas(capture.deltas);
      RememberReasoning(resp);
      var all := AllServerToolCalls(resp.toolCalls);
      if !all {
        return Replay(capture.deltas);
      }
      var final := ExecuteServerTools(cand, resp);
      return if final.Ok? then Burst(final.resp) else ToolsFailed(final.error);
    }

    /** Serves an OpenAI stream. */
    method RunStreamCandidates(cands: seq<Candidate>) returns (served: Option<Served<Output>>)
      modifies this
      ensures Step(View(), served) == Stream(s, old(View()), cands, OpenAI)
    {
      for i := 0 to |cands|
        invariant Stream(s, View(), cands[i..], OpenAI) == Stream(s, old(View()), cands, OpenAI)
      {
        var cand := cands[i];
        assert cands[i..][0] == cand && cands[i..][1..] == cands[i + 1..];
        if cand.provider !in s.providers {
          RecordFailure(cand);
          continue;
        }
        var capture := StreamWithRetry(cand);
        if capture.None? {
          continue;
        }
        if !capture.value.EndedInError() {
          RecordSuccess(cand);
        }
        var output := ServeCapture(cand, capture.value);
        return Some(Served(cand, output));
      }
      return None;
    }

    /** Serves an Anthropic stream: one attempt per candidate; a stream that broke off is cooled as well. */
    method RunAnthropicCandidates(cands: seq<Candidate>) returns (served: Option<Served<Output>>)
      modifies this
      ensures Step(View(), served) == Stream(s, old(View()), cands, Anthropic)
    {
      for i := 0 to |cands|
        invariant Stream(s, View(), cands[i..], Anthropic) == Stream(s, old(View()), cands, Anthropic)
      {
        var cand := cands[i];
        assert cands[i..][0] == cand && cands[i..][1..] == cands[i + 1..];
        if cand.provider !in s.providers {
          RecordFailure(cand);
          continue;
        }
        var capture := CaptureStream(cand);
        if capture.error.Some? && !capture.Delivered() {
          RecordFailure(cand);
          continue;
        }
        if capture.EndedInError() {
          RecordFailure(cand);
        } else {
          RecordSuccess(cand);
        }
        var output := ServeCapture(cand, capture);
        return Some(Served(cand, output));
      }
      return None;
    }
  }
}
