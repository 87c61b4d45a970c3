/**
 * What a run serves and how it is judged, read off its log alone: the answer served is the last one given, attempts are
 * repeated exactly so often, and a candidate is cooled exactly for these answers.
 */
module ServedAnswers {
  import opened Chat
  import opened Capture
  import opened Orchestration
  import opened OrchestrationRuns
  import opened StreamRuns
  import opened Transcripts

  // ---- the last call --------------------------------------------------------------------------

  /** Nothing was asked and nothing executed after the event at `i`. */
  ghost predicate LastAt(log: seq<Event>, i: nat) {
    i < |log| && forall j :: i < j < |log| ==> !log[j].Called? && !log[j].Streamed? && !log[j].Executed?
  }

  /** The last call of the log went to `cand`, which answered `outcome`. */
  ghost predicate LastCall(log: seq<Event>, cand: Candidate, outcome: Outcome) {
    exists i: nat :: LastAt(log, i) && log[i].Called? && log[i].cand == cand && log[i].outcome == outcome
  }

  /** The last stream of the log came from `cand`, and held `deltas`. */
  ghost predicate LastStream(log: seq<Event>, cand: Candidate, deltas: seq<StreamDelta>) {
    exists i: nat :: LastAt(log, i) && log[i].Streamed? && log[i].cand == cand && log[i].capture.deltas == deltas
  }

  lemma {:induction false} LastAtNext(log: seq<Event>, e: Event, i: nat)
    requires i < |log|
    ensures LastAt(log + [e], i) <==> LastAt(log, i) && !e.Called? && !e.Streamed? && !e.Executed?
    ensures LastAt(log + [e], |log|)
  {
    assert forall j :: 0 <= j < |log| ==> (log + [e])[j] == log[j];
    assert (log + [e])[|log|] == e;
  }

  lemma {:induction false} LastCallStays(log: seq<Event>, e: Event, cand: Candidate, outcome: Outcome)
    requires LastCall(log, cand, outcome) && (e.Remembered? || e.Cooled? || e.Credited?)
    ensures LastCall(log + [e], cand, outcome)
  {
    var i: nat :| LastAt(log, i) && log[i].Called? && log[i].cand == cand && log[i].outcome == outcome;
    LastAtNext(log, e, i);
  }

  lemma {:induction false} LastStreamStays(log: seq<Event>, e: Event, cand: Candidate, deltas: seq<StreamDelta>)
    requires LastStream(log, cand, deltas) && (e.Remembered? || e.Cooled? || e.Credited?)
    ensures LastStream(log + [e], cand, deltas)
  {
    var i: nat :| LastAt(log, i) && log[i].Streamed? && log[i].cand == cand && log[i].capture.deltas == deltas;
    LastAtNext(log, e, i);
  }

  lemma {:induction false} CallIsLast(s: Setting, st: State, cand: Candidate)
    ensures LastCall(Call(s, st, cand).st.log, cand, Call(s, st, cand).value)
    ensures LastStream(Attempt(s, st, cand).st.log, cand, Attempt(s, st, cand).value.deltas)
  {
    var called, streamed := Call(s, st, cand).st.log, Attempt(s, st, cand).st.log;
    assert LastAt(called, |st.log|) && LastAt(streamed, |st.log|);
  }

  lemma {:induction false} RetryIsLast(s: Setting, st: State, cand: Candidate, left: nat)
    requires left > 0
    ensures var again := Retry(s, st, cand, left); LastCall(again.st.log, cand, again.value)
    decreases left
  {
    CallIsLast(s, st, cand);
    if left == 1 {
    } else {
      RetryIsLast(s, Call(s, st, cand).st, cand, left - 1);
    }
  }

  lemma {:induction false} AgainIsLast(s: Setting, st: State, cand: Candidate, left: nat)
    requires left > 0
    ensures var again := AttemptAgain(s, st, cand, left); LastStream(again.st.log, cand, again.value.deltas)
    decreases left
  {
    CallIsLast(s, st, cand);
    if left == 1 {
    } else {
      AgainIsLast(s, Attempt(s, st, cand).st, cand, left - 1);
    }
  }

  lemma {:induction false} ContinueIsLast(s: Setting, st: State, cand: Candidate, resp: ChatResponse)
    ensures var next := Continue(s, st, cand, resp); LastCall(next.st.log, cand, next.value)
  {
    var ready := Execute(s, st, resp.reasoning, resp.toolCalls).(stream := false);
    var next := Call(s, ready, cand);
    CallIsLast(s, ready, cand);
    if next.value.Ok? {
      LastCallStays(next.st.log, Remembered(next.value.resp.toolCalls, next.value.resp.reasoning), cand, next.value);
    }
  }

  lemma {:induction false} ToolLoopIsLast(s: Setting, st: State, cand: Candidate, resp: ChatResponse, left: nat)
    requires LastCall(st.log, cand, Ok(resp)) || (left > 0 && s.AllOwned(resp.toolCalls))
    ensures var loop := ToolLoop(s, st, cand, resp, left); LastCall(loop.st.log, cand, loop.value)
    decreases left
  {
    if left == 0 {
      LastCallStays(st.log, Remembered(resp.toolCalls, resp.reasoning), cand, Ok(resp));
    } else if s.AllOwned(resp.toolCalls) {
      var next := Continue(s, st, cand, resp);
      ContinueIsLast(s, st, cand, resp);
      if next.value.Ok? {
        ToolLoopIsLast(s, next.st, cand, next.value.resp, left - 1);
      }
    }
  }

  /** The loop as it is entered, after a call or with calls to execute. */
  lemma {:induction false} EnteredLoopIsLast(s: Setting, st: State, cand: Candidate, resp: ChatResponse, left: nat)
    requires LastCall(st.log, cand, Ok(resp)) || (left > 0 && s.AllOwned(resp.toolCalls))
    ensures var loop := ToolLoop(s, st.Remembering(resp), cand, resp, left); LastCall(loop.st.log, cand, loop.value)
  {
    if LastCall(st.log, cand, Ok(resp)) {
      LastCallStays(st.log, Remembered(resp.toolCalls, resp.reasoning), cand, Ok(resp));
    }
    ToolLoopIsLast(s, st.Remembering(resp), cand, resp, left);
  }

  lemma {:induction false} FinishIsLast(s: Setting, st: State, cand: Candidate, resp: ChatResponse)
    returns (last: Outcome)
    requires LastCall(st.log, cand, Ok(resp))
    ensures var finished := Finish(s, st, cand, resp);
            && LastCall(finished.st.log, cand, last)
            && finished.value == if last.Ok? then Some(last.resp) else None
    ensures last.Err? <==> LoopFails(s, st, cand, resp)
  {
    var loop := ToolLoop(s, st.Remembering(resp), cand, resp, MAX_TOOL_ROUNDS);
    last := loop.value;
    EnteredLoopIsLast(s, st, cand, resp, MAX_TOOL_ROUNDS);
    LastCallStays(loop.st.log, Cooled(cand), cand, last);
    LastCallStays(loop.st.log, Credited(cand), cand, last);
  }

  /** A completion serves the last answer any provider gave it, unchanged, under the candidate that gave it. */
  lemma {:induction false} CompleteServesLast(s: Setting, st: State, cands: seq<Candidate>, wire: Wire)
    ensures var run := Complete(s, st, cands, wire);
            run.value.Some? ==> LastCall(run.st.log, run.value.value.cand, Ok(run.value.value.value))
    decreases |cands|
  {
    if cands == [] {
    } else {
      var tried := Try(s, st, cands[0], wire);
      if tried.value.Some? {
        var made := Attempts(s, st, cands[0], wire);
        CallIsLast(s, st, cands[0]);
        RetryIsLast(s, Call(s, st, cands[0]).st, cands[0], MAX_ATTEMPTS - 1);
        var last := FinishIsLast(s, made.st, cands[0], made.value.resp);
      } else {
        CompleteServesLast(s, tried.st, cands[1..], wire);
      }
    }
  }

  lemma {:induction false} StreamTryIsLast(s: Setting, st: State, cand: Candidate, wire: Wire)
    ensures var tried := StreamTry(s, st, cand, wire);
            tried.value.Some? ==> LastStream(tried.st.log, cand, tried.value.value.deltas)
  {
    if cand.provider in s.providers {
      var made := StreamAttempts(s, st, cand, wire);
      CallIsLast(s, st, cand);
      AgainIsLast(s, Attempt(s, st, cand).st, cand, MAX_ATTEMPTS - 1);
      LastStreamStays(made.st.log, Credited(cand), cand, made.value.deltas);
      LastStreamStays(made.st.log, Cooled(cand), cand, made.value.deltas);
    }
  }

  lemma {:induction false} PickedIsLastStream(s: Setting, st: State, cands: seq<Candidate>, wire: Wire)
    ensures var picked := Picked(s, st, cands, wire);
            picked.value.Some? ==>
              LastStream(picked.st.log, picked.value.value.cand, picked.value.value.value.deltas)
    decreases |cands|
  {
    if cands == [] {
    } else {
      StreamTryIsLast(s, st, cands[0], wire);
      if StreamTry(s, st, cands[0], wire).value.None? {
        PickedIsLastStream(s, StreamTry(s, st, cands[0], wire).st, cands[1..], wire);
      }
    }
  }

  /** What a stream serves is what happened last: the chunks of a stream, or the answer or the error of a call. */
  ghost predicate ServesLast(log: seq<Event>, cand: Candidate, output: Output) {
    match output
    case Replay(deltas) => LastStream(log, cand, deltas)
    case Burst(resp) => LastCall(log, cand, Ok(resp))
    case ToolsFailed(error) => LastCall(log, cand, Err(error))
  }

  lemma {:induction false} ServeIsLast(s: Setting, st: State, cand: Candidate, capture: Captured)
    requires LastStream(st.log, cand, capture.deltas)
    ensures var served := Serve(s, st, cand, capture); ServesLast(served.st.log, cand, served.value)
  {
    var resp := Collapse(capture.deltas);
    if Bursts(s, capture) {
      EnteredLoopIsLast(s, st, cand, resp, MAX_TOOL_ROUNDS);
    } else {
      LastStreamStays(st.log, Remembered(resp.toolCalls, resp.reasoning), cand, capture.deltas);
    }
  }

  /** A streaming run serves what happened last, under the candidate with which it happened. */
  lemma {:induction false} StreamServesLast(s: Setting, st: State, cands: seq<Candidate>, wire: Wire)
    ensures var run := Stream(s, st, cands, wire);
            run.value.Some? ==> ServesLast(run.st.log, run.value.value.cand, run.value.value.value)
  {
    var picked := Picked(s, st, cands, wire);
    StreamIsPicked(s, st, cands, wire);
    PickedIsLastStream(s, st, cands, wire);
    if picked.value.Some? {
      ServeIsLast(s, picked.st, picked.value.value.cand, picked.value.value.value);
    }
  }

  /** A captured stream is replayed if it broke off, or if its calls are not all the server's. */
  lemma {:induction false} ReplayedIff(s: Setting, st: State, cand: Candidate, capture: Captured)
    ensures var calls := Collapse(capture.deltas).toolCalls;
            Serve(s, st, cand, capture).value.Replay? <==>
            || capture.error.Some?
            || (exists d :: d in capture.deltas && d.finishReason == "error")
            || calls == []
            || (exists c :: c in calls && (c.name !in s.registered || c.name in s.clientTools))
  {
    var n := ServeAdds(s, st, cand, capture);
  }

  // ---- how often a candidate is asked ---------------------------------------------------------

  /** `log'` is `log` and a call to `cand` for each answer, all of the same conversation. */
  ghost predicate Asked(st: State, st': State, cand: Candidate, answers: seq<Outcome>) {
    var m := |st.log|;
    && st'.messages == st.messages && st'.stream == st.stream
    && |st'.log| == m + |answers| && st'.log[..m] == st.log
    && forall i :: 0 <= i < |answers| ==>
         st'.log[m + i] == Called(cand, Request(cand.model, st.messages, st.stream), answers[i])
  }

  /**
   * How often a completion asks its candidate: once if the first answer is served, is a rate limit or an error below
   * 500, or on the Anthropic wire; after a connection failure or an error from 500 on, until it answers, three times in
   * all. The last answer is the one that counts.
   */
  lemma {:induction false} AttemptsAre(s: Setting, st: State, cand: Candidate, wire: Wire)
    returns (answers: seq<Outcome>)
    ensures 1 <= |answers| <= 3 && Asked(st, Attempts(s, st, cand, wire).st, cand, answers)
    ensures Attempts(s, st, cand, wire).value == answers[|answers| - 1]
    ensures forall i :: 0 <= i < |answers| - 1 ==> answers[i].Err?
    ensures |answers| == 2 ==> answers[1].Ok?
    ensures |answers| == 1 <==>
            || wire.Anthropic? || answers[0].Ok? || answers[0].error == RateLimit
            || (answers[0].error.Status? && answers[0].error.code < 500)
  {
    var first := Call(s, st, cand);
    answers := [first.value];
    if wire.OpenAI? && first.value.Err? && first.value.error.Retryable() {
      var second := Call(s, first.st, cand);
      answers := [first.value, second.value];
      if second.value.Err? {
        var third := Call(s, second.st, cand);
        assert Retry(s, second.st, cand, 1) == third;
        answers := [first.value, second.value, third.value];
      }
    }
  }

  ghost predicate StreamsAsked(st: State, st': State, cand: Candidate, captures: seq<Captured>) {
    var m := |st.log|;
    && st'.messages == st.messages && st'.stream == st.stream
    && |st'.log| == m + |captures| && st'.log[..m] == st.log
    && forall i :: 0 <= i < |captures| ==>
         st'.log[m + i] == Streamed(cand, Request(cand.model, st.messages, st.stream), captures[i])
  }

  /** How often a stream is asked for: the same, as long as attempts fail without a single chunk. */
  lemma {:induction false} StreamAttemptsAre(s: Setting, st: State, cand: Candidate, wire: Wire)
    returns (captures: seq<Captured>)
    ensures captures != [] && captures[0] == Attempt(s, st, cand).value
    ensures 1 <= |captures| <= 3 && StreamsAsked(st, StreamAttempts(s, st, cand, wire).st, cand, captures)
    ensures StreamAttempts(s, st, cand, wire).value == captures[|captures| - 1]
    ensures forall i :: 0 <= i < |captures| - 1 ==> captures[i].deltas == [] && captures[i].error.Some?
    ensures |captures| == 2 ==> captures[1].deltas != [] || captures[1].error.None?
    ensures |captures| == 1 <==>
            || wire.Anthropic? || captures[0].deltas != [] || captures[0].error.None?
            || captures[0].error.value == RateLimit
            || (captures[0].error.value.Status? && captures[0].error.value.code < 500)
  {
    var first := Attempt(s, st, cand);
    captures := [first.value];
    if wire.OpenAI? && first.value.Empty() && first.value.error.value.Retryable() {
      var second := Attempt(s, first.st, cand);
      captures := [first.value, second.value];
      if second.value.Empty() {
        var third := Attempt(s, second.st, cand);
        assert AttemptAgain(s, second.st, cand, 1) == third;
        captures := [first.value, second.value, third.value];
      }
    }
  }

  // ---- what a candidate is cooled for ---------------------------------------------------------

  ghost predicate Grows(before: State, after: State) {
    |before.log| <= |after.log| && after.log[..|before.log|] == before.log
  }

  lemma {:induction false} GrowsFurther(a: State, b: State, c: State)
    requires Grows(a, b) && Grows(b, c)
    ensures Grows(a, c)
  {
    assert c.log[..|a.log|] == b.log[..|a.log|];
  }

  lemma {:induction false} ContinueGrows(s: Setting, st: State, cand: Candidate, resp: ChatResponse)
    ensures Grows(st, Continue(s, st, cand, resp).st)
  {
    var ready := Execute(s, st, resp.reasoning, resp.toolCalls).(stream := false);
    var next := Call(s, ready, cand);
    ExecuteTells(s, st, resp.reasoning, resp.toolCalls);
    assert Grows(st, ready);
    GrowsFurther(st, ready, next.st);
    if next.value.Ok? {
      GrowsFurther(st, next.st, next.st.Remembering(next.value.resp));
    }
  }

  lemma {:induction false} ToolLoopGrows(s: Setting, st: State, cand: Candidate, resp: ChatResponse, left: nat)
    ensures Grows(st, ToolLoop(s, st, cand, resp, left).st)
    decreases left
  {
    if left > 0 && s.AllOwned(resp.toolCalls) {
      var next := Continue(s, st, cand, resp);
      ContinueGrows(s, st, cand, resp);
      if next.value.Ok? {
        ToolLoopGrows(s, next.st, cand, next.value.resp, left - 1);
        GrowsFurther(st, next.st, ToolLoop(s, next.st, cand, next.value.resp, left - 1).st);
      }
    }
  }

  lemma {:induction false} FinishGrows(s: Setting, st: State, cand: Candidate, resp: ChatResponse)
    ensures Grows(st, Finish(s, st, cand, resp).st)
  {
    var ready := st.Remembering(resp);
    var loop := ToolLoop(s, ready, cand, resp, MAX_TOOL_ROUNDS);
    ToolLoopGrows(s, ready, cand, resp, MAX_TOOL_ROUNDS);
    GrowsFurther(st, ready, loop.st);
    GrowsFurther(st, loop.st, Finish(s, st, cand, resp).st);
  }

  /** From position `m` on, some call succeeded. */
  ghost predicate Succeeded(log: seq<Event>, m: nat) {
    exists i :: m <= i < |log| && log[i].Called? && log[i].outcome.Ok?
  }

  /**
   * A known candidate's completion: it serves exactly if the last call of its turn succeeded. It is cooled exactly if
   * that call failed, and on the OpenAI wire only if its first call met a rate limit or some earlier one had succeeded.
   */
  lemma {:induction false} CooledForCalls(s: Setting, st: State, cand: Candidate, wire: Wire) returns (last: Outcome)
    requires cand.provider in s.providers
    ensures var tried, m := Try(s, st, cand, wire), |st.log|;
            && Grows(st, tried.st) && m < |tried.st.log| && tried.st.log[m].Called?
            && LastCall(tried.st.log, cand, last)
            && tried.value == (if last.Ok? then Some(last.resp) else None)
            && (CoolsDown(s, st, cand, wire) <==>
                  last.Err? && (wire.Anthropic? || tried.st.log[m].outcome == Err(RateLimit)
                                || Succeeded(tried.st.log, m)))
  {
    var made, m := Attempts(s, st, cand, wire), |st.log|;
    var answers := AttemptsAre(s, st, cand, wire);
    var n := |answers|;
    CallIsLast(s, st, cand);
    RetryIsLast(s, Call(s, st, cand).st, cand, MAX_ATTEMPTS - 1);
    assert Grows(st, made.st);
    if made.value.Ok? {
      last := FinishIsLast(s, made.st, cand, made.value.resp);
      FinishGrows(s, made.st, cand, made.value.resp);
      var tried := Finish(s, made.st, cand, made.value.resp);
      GrowsFurther(st, made.st, tried.st);
      assert tried.st.log[m + n - 1] == made.st.log[m + n - 1] && tried.st.log[m] == made.st.log[m];
      assert Succeeded(tried.st.log, m);
    } else {
      last := made.value;
      FailedTry(s, st, cand, wire, answers);
    }
  }

  lemma {:induction false} FailedTry(s: Setting, st: State, cand: Candidate, wire: Wire, answers: seq<Outcome>)
    requires cand.provider in s.providers && answers != []
    requires var made := Attempts(s, st, cand, wire);
             && made.value.Err? && Asked(st, made.st, cand, answers) && answers[0] == Call(s, st, cand).value
             && (forall i :: 0 <= i < |answers| ==> answers[i].Err?) && LastCall(made.st.log, cand, made.value)
    ensures var tried, m := Try(s, st, cand, wire), |st.log|;
            && Grows(st, tried.st) && m < |tried.st.log| && tried.st.log[m].Called?
            && LastCall(tried.st.log, cand, Attempts(s, st, cand, wire).value)
            && !Succeeded(tried.st.log, m) && tried.st.log[m].outcome == answers[0]
  {
    var made, m := Attempts(s, st, cand, wire), |st.log|;
    LastCallStays(made.st.log, Cooled(cand), cand, made.value);
    var log := Try(s, st, cand, wire).st.log;
    forall i | m <= i < |log| && log[i].Called?
      ensures log[i].outcome.Err?
    {
      var k := i - m;
      assert k < |answers| && made.st.log[m + k].Called? && made.st.log[m + k].outcome == answers[k];
    }
  }

  /**
   * A known candidate's stream: it delivers exactly unless its last attempt failed without a chunk. On the OpenAI wire
   * it is cooled exactly if the first attempt met a rate limit before any chunk; on the Anthropic wire exactly if the
   * attempt failed without a chunk or had an error chunk; it is credited exactly if it delivered and had none.
   */
  lemma {:induction false} CooledForStreams(s: Setting, st: State, cand: Candidate, wire: Wire)
    returns (first: Captured, last: Captured)
    requires cand.provider in s.providers
    ensures var tried, m := StreamTry(s, st, cand, wire), |st.log|;
            var broken := exists d :: d in last.deltas && d.finishReason == "error";
            && m < |tried.st.log| && tried.st.log[m].Streamed? && tried.st.log[m].capture == first
            && LastStream(tried.st.log, cand, last.deltas)
            && tried.value == (if last.deltas == [] && last.error.Some? then None else Some(last))
            && (StreamCoolsDown(s, st, cand, wire) <==>
                  if wire.OpenAI? then first.deltas == [] && first.error == Some(RateLimit)
                  else (last.deltas == [] && last.error.Some?) || broken)
            && (StreamCredits(s, st, cand, wire) <==> tried.value.Some? && !broken)
  {
    first, last := Attempt(s, st, cand).value, StreamAttempts(s, st, cand, wire).value;
    StreamTryEnds(s, st, cand, wire);
  }

  lemma {:induction false} StreamTryEnds(s: Setting, st: State, cand: Candidate, wire: Wire)
    requires cand.provider in s.providers
    ensures var log, m, last := StreamTry(s, st, cand, wire).st.log, |st.log|, StreamAttempts(s, st, cand, wire).value;
            && m < |log| && log[m].Streamed? && log[m].capture == Attempt(s, st, cand).value
            && LastStream(log, cand, last.deltas)
    ensures wire.Anthropic? ==> StreamAttempts(s, st, cand, wire).value == Attempt(s, st, cand).value
  {
    var made := StreamAttempts(s, st, cand, wire);
    var captures := StreamAttemptsAre(s, st, cand, wire);
    assert made.st.log[|st.log|] == Streamed(cand, Request(cand.model, st.messages, st.stream), captures[0]);
    CallIsLast(s, st, cand);
    AgainIsLast(s, Attempt(s, st, cand).st, cand, MAX_ATTEMPTS - 1);
    LastStreamStays(made.st.log, Cooled(cand), cand, made.value.deltas);
    LastStreamStays(made.st.log, Credited(cand), cand, made.value.deltas);
  }
}
