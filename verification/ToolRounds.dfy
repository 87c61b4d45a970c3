/**
 * The order of events within every run: a batch is executed only right after the response that asked for it was
 * remembered, call by call and to its end, and a call to the provider follows.
 */
module ToolRounds {
  import opened Chat
  import opened Collections
  import opened Capture
  import opened Orchestration
  import opened StreamRuns
  import opened ServedAnswers

  /** The log ends with a response remembered, and the first `n` of its calls executed. */
  ghost predicate Underway(log: seq<Event>, calls: seq<ToolCall>, reasoning: string, n: nat) {
    && n <= |calls| && n < |log|
    && var r := |log| - 1 - n;
       && log[r] == Remembered(calls, reasoning)
       && forall j :: r < j < |log| ==>
            log[j].Executed? && log[j].call == calls[j - r - 1] && log[j].reasoning == reasoning
  }

  /**
   * The log ends with a response with these calls and this reasoning: a provider's answer, a response remembered
   * before, or a stream that came to a clean end.
   */
  ghost predicate Responds(log: seq<Event>, calls: seq<ToolCall>, reasoning: string) {
    && log != []
    && match log[|log| - 1]
       case Called(_, _, outcome) =>
         outcome.Ok? && outcome.resp.toolCalls == calls && outcome.resp.reasoning == reasoning
       case Remembered(calls', reasoning') => calls' == calls && reasoning' == reasoning
       case Credited(_) =>
         && |log| > 1 && log[|log| - 2].Streamed?
         && var capture := log[|log| - 2].capture;
            && capture.error.None? && (forall d :: d in capture.deltas ==> d.finishReason != "error")
            && Collapse(capture.deltas).toolCalls == calls && Collapse(capture.deltas).reasoning == reasoning
       case _ => false
  }

  /** No batch is underway. */
  ghost predicate Settled(log: seq<Event>) {
    log != [] ==> !log[|log| - 1].Executed?
  }

  /** What may follow `log`. */
  ghost predicate Follows(s: Setting, log: seq<Event>, e: Event) {
    match e
    case Executed(call, reasoning, _) =>
      exists calls: seq<ToolCall>, n: nat ::
        && Underway(log, calls, reasoning, n) && n < |calls| && call == calls[n]
        && forall c :: c in calls ==> c.name in s.registered && c.name !in s.clientTools
    case Called(_, _, _) =>
      Settled(log) || exists calls: seq<ToolCall>, reasoning: string :: Underway(log, calls, reasoning, |calls|)
    case Remembered(calls, reasoning) => Responds(log, calls, reasoning)
    case _ => Settled(log)
  }

  /** Every event follows those before it. */
  ghost predicate Ordered(s: Setting, log: seq<Event>) {
    forall i :: 0 <= i < |log| ==> Follows(s, log[..i], log[i])
  }

  /** And no batch is left unfinished. */
  ghost predicate Orderly(s: Setting, log: seq<Event>) {
    Ordered(s, log) && Settled(log)
  }

  lemma {:induction false} OrderedNext(s: Setting, log: seq<Event>, e: Event)
    requires Ordered(s, log) && Follows(s, log, e)
    ensures Ordered(s, log + [e])
  {
    forall i | 0 <= i < |log + [e]|
      ensures Follows(s, (log + [e])[..i], (log + [e])[i])
    {
      assert (log + [e])[..i] == if i < |log| then log[..i] else log;
    }
  }

  lemma {:induction false} UnderwayNext(log: seq<Event>, calls: seq<ToolCall>, reasoning: string, n: nat,
                                        result: string)
    requires Underway(log, calls, reasoning, n) && n < |calls|
    ensures Underway(log + [Executed(calls[n], reasoning, result)], calls, reasoning, n + 1)
  {
    var more, r := log + [Executed(calls[n], reasoning, result)], |log| - 1 - n;
    assert more[r] == log[r] && more[|log|].call == calls[n];
    assert forall j :: r < j < |log| ==> more[j] == log[j];
  }

  lemma {:induction false} ExecutedIsOrdered(s: Setting, log: seq<Event>, calls: seq<ToolCall>, reasoning: string,
                                             n: nat, result: string)
    requires Ordered(s, log) && Underway(log, calls, reasoning, n) && n < |calls| && s.AllOwned(calls)
    ensures var more := log + [Executed(calls[n], reasoning, result)];
            Ordered(s, more) && Underway(more, calls, reasoning, n + 1)
  {
    OrderedNext(s, log, Executed(calls[n], reasoning, result));
    UnderwayNext(log, calls, reasoning, n, result);
  }

  lemma {:induction false} ExecuteNext(s: Setting, st: State, reasoning: string, calls: seq<ToolCall>, n: nat)
    requires n < |calls|
    ensures var before := Execute(s, st, reasoning, calls[..n]);
            Execute(s, st, reasoning, calls[..n + 1]).log ==
            before.log + [Executed(calls[n], reasoning, s.tool(before.log, calls[n]))]
  {
    assert calls[..n + 1][..n] == calls[..n];
  }

  /** The first `n` calls of a batch just remembered. */
  lemma {:induction false} ExecuteIsOrdered(s: Setting, st: State, calls: seq<ToolCall>, reasoning: string, n: nat)
    requires Ordered(s, st.log) && Underway(st.log, calls, reasoning, 0) && s.AllOwned(calls) && n <= |calls|
    ensures var after := Execute(s, st, reasoning, calls[..n]);
            Ordered(s, after.log) && Underway(after.log, calls, reasoning, n)
  {
    if n == 0 {
    } else {
      var before := Execute(s, st, reasoning, calls[..n - 1]);
      ExecuteIsOrdered(s, st, calls, reasoning, n - 1);
      ExecuteNext(s, st, reasoning, calls, n - 1);
      ExecutedIsOrdered(s, before.log, calls, reasoning, n - 1, s.tool(before.log, calls[n - 1]));
    }
  }

  /** A response that was just remembered. */
  ghost predicate Ready(s: Setting, st: State, resp: ChatResponse) {
    Ordered(s, st.log) && Underway(st.log, resp.toolCalls, resp.reasoning, 0)
  }

  lemma {:induction false} RememberingIsReady(s: Setting, st: State, resp: ChatResponse)
    requires Ordered(s, st.log) && Responds(st.log, resp.toolCalls, resp.reasoning)
    ensures Ready(s, st.Remembering(resp), resp)
  {
    OrderedNext(s, st.log, Remembered(resp.toolCalls, resp.reasoning));
  }

  lemma {:induction false} ContinueIsOrderly(s: Setting, st: State, cand: Candidate, resp: ChatResponse)
    requires Ready(s, st, resp) && s.AllOwned(resp.toolCalls)
    ensures var next := Continue(s, st, cand, resp);
            Orderly(s, next.st.log) && (next.value.Ok? ==> Ready(s, next.st, next.value.resp))
  {
    var ready := Execute(s, st, resp.reasoning, resp.toolCalls).(stream := false);
    var next := Call(s, ready, cand);
    WholePrefix(resp.toolCalls);
    ExecuteIsOrdered(s, st, resp.toolCalls, resp.reasoning, |resp.toolCalls|);
    OrderedNext(s, ready.log, Called(cand, ready.RequestTo(cand), next.value));
    if next.value.Ok? {
      RememberingIsReady(s, next.st, next.value.resp);
    }
  }

  lemma {:induction false} ToolLoopIsOrderly(s: Setting, st: State, cand: Candidate, resp: ChatResponse, left: nat)
    requires Ready(s, st, resp)
    ensures Orderly(s, ToolLoop(s, st, cand, resp, left).st.log)
    decreases left
  {
    if left == 0 {
      RememberingIsReady(s, st, resp);
    } else if s.AllOwned(resp.toolCalls) {
      var next := Continue(s, st, cand, resp);
      ContinueIsOrderly(s, st, cand, resp);
      if next.value.Ok? {
        ToolLoopIsOrderly(s, next.st, cand, next.value.resp, left - 1);
      }
    }
  }

  lemma {:induction false} EnteredLoopIsOrderly(s: Setting, st: State, cand: Candidate, resp: ChatResponse, left: nat)
    requires Orderly(s, st.log) && Responds(st.log, resp.toolCalls, resp.reasoning)
    ensures Orderly(s, ToolLoop(s, st.Remembering(resp), cand, resp, left).st.log)
  {
    RememberingIsReady(s, st, resp);
    ToolLoopIsOrderly(s, st.Remembering(resp), cand, resp, left);
  }

  lemma {:induction false} NotedIsOrderly(s: Setting, log: seq<Event>, e: Event)
    requires Orderly(s, log) && !e.Executed? && !e.Remembered?
    ensures Orderly(s, log + [e])
  {
    OrderedNext(s, log, e);
  }

  lemma {:induction false} RetryIsOrderly(s: Setting, st: State, cand: Candidate, left: nat)
    requires left > 0 && Orderly(s, st.log)
    ensures var again := Retry(s, st, cand, left);
            && Orderly(s, again.st.log)
            && (again.value.Ok? ==> Responds(again.st.log, again.value.resp.toolCalls, again.value.resp.reasoning))
    decreases left
  {
    NotedIsOrderly(s, st.log, Called(cand, st.RequestTo(cand), Call(s, st, cand).value));
    if left == 1 {
    } else {
      RetryIsOrderly(s, Call(s, st, cand).st, cand, left - 1);
    }
  }

  lemma {:induction false} AttemptsAreOrderly(s: Setting, st: State, cand: Candidate, wire: Wire)
    requires Orderly(s, st.log)
    ensures var tried := Attempts(s, st, cand, wire);
            && Orderly(s, tried.st.log)
            && (tried.value.Ok? ==> Responds(tried.st.log, tried.value.resp.toolCalls, tried.value.resp.reasoning))
  {
    var first := Call(s, st, cand);
    NotedIsOrderly(s, st.log, Called(cand, st.RequestTo(cand), first.value));
    RetryIsOrderly(s, first.st, cand, MAX_ATTEMPTS - 1);
  }

  lemma {:induction false} FinishIsOrderly(s: Setting, st: State, cand: Candidate, resp: ChatResponse)
    requires Orderly(s, st.log) && Responds(st.log, resp.toolCalls, resp.reasoning)
    ensures Orderly(s, Finish(s, st, cand, resp).st.log)
  {
    var loop := ToolLoop(s, st.Remembering(resp), cand, resp, MAX_TOOL_ROUNDS);
    EnteredLoopIsOrderly(s, st, cand, resp, MAX_TOOL_ROUNDS);
    NotedIsOrderly(s, loop.st.log, Cooled(cand));
    NotedIsOrderly(s, loop.st.log, Credited(cand));
  }

  lemma {:induction false} TryIsOrderly(s: Setting, st: State, cand: Candidate, wire: Wire)
    requires Orderly(s, st.log)
    ensures Orderly(s, Try(s, st, cand, wire).st.log)
  {
    if cand.provider !in s.providers {
      NotedIsOrderly(s, st.log, Cooled(cand));
    } else {
      var tried := Attempts(s, st, cand, wire);
      AttemptsAreOrderly(s, st, cand, wire);
      if tried.value.Ok? {
        FinishIsOrderly(s, tried.st, cand, tried.value.resp);
      } else {
        NotedIsOrderly(s, tried.st.log, Cooled(cand));
      }
    }
  }

  /** Over a whole completion. */
  lemma {:induction false} CompleteIsOrderly(s: Setting, st: State, cands: seq<Candidate>, wire: Wire)
    requires Orderly(s, st.log)
    ensures Orderly(s, Complete(s, st, cands, wire).st.log)
    decreases |cands|
  {
    if cands == [] {
    } else {
      TryIsOrderly(s, st, cands[0], wire);
      CompleteIsOrderly(s, Try(s, st, cands[0], wire).st, cands[1..], wire);
    }
  }

  lemma {:induction false} AgainIsOrderly(s: Setting, st: State, cand: Candidate, left: nat)
    requires left > 0 && Orderly(s, st.log)
    ensures Orderly(s, AttemptAgain(s, st, cand, left).st.log)
    decreases left
  {
    NotedIsOrderly(s, st.log, Streamed(cand, st.RequestTo(cand), Attempt(s, st, cand).value));
    if left == 1 {
    } else {
      AgainIsOrderly(s, Attempt(s, st, cand).st, cand, left - 1);
    }
  }

  lemma {:induction false} StreamAttemptsAreOrderly(s: Setting, st: State, cand: Candidate, wire: Wire)
    requires Orderly(s, st.log)
    ensures Orderly(s, StreamAttempts(s, st, cand, wire).st.log)
  {
    var first := Attempt(s, st, cand);
    NotedIsOrderly(s, st.log, Streamed(cand, st.RequestTo(cand), first.value));
    AgainIsOrderly(s, first.st, cand, MAX_ATTEMPTS - 1);
  }

  lemma {:induction false} JudgedIsOrderly(s: Setting, st: State, cand: Candidate, capture: Captured, wire: Wire)
    requires Orderly(s, st.log)
    ensures Orderly(s, Judge(st, cand, capture, wire).log) && Orderly(s, st.Noted(Cooled(cand)).log)
  {
    NotedIsOrderly(s, st.log, Cooled(cand));
    NotedIsOrderly(s, st.log, Credited(cand));
  }

  lemma {:induction false} StreamTryIsOrderly(s: Setting, st: State, cand: Candidate, wire: Wire)
    requires Orderly(s, st.log)
    ensures Orderly(s, StreamTry(s, st, cand, wire).st.log)
  {
    if cand.provider !in s.providers {
      NotedIsOrderly(s, st.log, Cooled(cand));
    } else {
      var made := StreamAttempts(s, st, cand, wire);
      StreamAttemptsAreOrderly(s, st, cand, wire);
      JudgedIsOrderly(s, made.st, cand, made.value, wire);
    }
  }

  lemma {:induction false} StreamIsLastAttempt(s: Setting, st: State, cand: Candidate, wire: Wire)
    ensures var made := StreamAttempts(s, st, cand, wire);
            && made.st.log != [] && made.st.log[|made.st.log| - 1].Streamed?
            && made.st.log[|made.st.log| - 1].capture == made.value
  {
    var captures := StreamAttemptsAre(s, st, cand, wire);
    var log := StreamAttempts(s, st, cand, wire).st.log;
    assert log[|st.log| + (|captures| - 1)].Streamed?;
  }

  lemma {:induction false} CleanStreamResponds(log: seq<Event>, cand: Candidate, capture: Captured)
    requires log != [] && log[|log| - 1].Streamed? && log[|log| - 1].capture == capture && capture.Clean()
    ensures var resp := Collapse(capture.deltas); Responds(log + [Credited(cand)], resp.toolCalls, resp.reasoning)
  {
    var credited := log + [Credited(cand)];
    assert credited[|credited| - 1] == Credited(cand) && credited[|credited| - 2] == log[|log| - 1];
    assert forall d :: d in capture.deltas ==> d.finishReason != "error";
  }

  /** A clean stream is what its candidate's turn ends with. */
  lemma {:induction false} DeliveredResponds(s: Setting, st: State, cand: Candidate, wire: Wire)
    requires var tried := StreamTry(s, st, cand, wire); tried.value.Some? && tried.value.value.Clean()
    ensures var tried := StreamTry(s, st, cand, wire);
            var resp := Collapse(tried.value.value.deltas);
            Responds(tried.st.log, resp.toolCalls, resp.reasoning)
  {
    var made := StreamAttempts(s, st, cand, wire);
    StreamIsLastAttempt(s, st, cand, wire);
    CleanStreamResponds(made.st.log, cand, made.value);
  }

  lemma {:induction false} PickedIsOrderly(s: Setting, st: State, cands: seq<Candidate>, wire: Wire)
    requires Orderly(s, st.log)
    ensures var picked := Picked(s, st, cands, wire);
            && Orderly(s, picked.st.log)
            && (picked.value.Some? && picked.value.value.value.Clean() ==>
                  var resp := Collapse(picked.value.value.value.deltas);
                  Responds(picked.st.log, resp.toolCalls, resp.reasoning))
    decreases |cands|
  {
    if cands == [] {
    } else {
      var tried := StreamTry(s, st, cands[0], wire);
      StreamTryIsOrderly(s, st, cands[0], wire);
      if tried.value.None? {
        PickedIsOrderly(s, tried.st, cands[1..], wire);
      } else if tried.value.value.Clean() {
        DeliveredResponds(s, st, cands[0], wire);
      }
    }
  }

  /** Over a whole stream. */
  lemma {:induction false} StreamIsOrderly(s: Setting, st: State, cands: seq<Candidate>, wire: Wire)
    requires Orderly(s, st.log)
    ensures Orderly(s, Stream(s, st, cands, wire).st.log)
  {
    var picked := Picked(s, st, cands, wire);
    StreamIsPicked(s, st, cands, wire);
    PickedIsOrderly(s, st, cands, wire);
    if picked.value.Some? && picked.value.value.value.Clean() {
      var resp := Collapse(picked.value.value.value.deltas);
      RememberingIsReady(s, picked.st, resp);
      EnteredLoopIsOrderly(s, picked.st, picked.value.value.cand, resp, MAX_TOOL_ROUNDS);
    }
  }
}
