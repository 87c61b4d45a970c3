/** The conversation a request carries along: over tool rounds and failover it stays well formed. */
module Conversation {
  import opened Chat
  import opened Collections
  import opened Capture
  import opened Orchestration
  import opened OrchestrationRuns

  // ---- the conversation -----------------------------------------------------------------------

  /** What a request to `cand` looks like after `log`, for a conversation begun as `origin`. */
  ghost predicate Asks(origin: State, log: seq<Event>, cand: Candidate, req: Request) {
    req == Request(cand.model, origin.messages + Pairs(log), origin.stream && Pairs(log) == [])
  }

  ghost predicate EventFits(s: Setting, origin: State, log: seq<Event>, e: Event) {
    match e
    case Called(cand, req, outcome) => Asks(origin, log, cand, req) && outcome == s.complete(log, cand, req)
    case Streamed(cand, req, capture) => Asks(origin, log, cand, req) && capture == s.stream(log, cand, req)
    case Executed(call, _, result) => s.Owned(call) && result == s.tool(log, call)
    case _ => true
  }

  /**
   * The conversation is the client's messages followed by one (call, result) pair per executed call, in order; every
   * provider was shown exactly that, as of its turn, under its own model name; a request is a streaming one only if
   * the client's was and no call has been executed; only the server's own tools were executed; and every answer in the
   * log is what the provider or the tool answered.
   */
  ghost predicate Consistent(s: Setting, origin: State, st: State) {
    && st.messages == origin.messages + Pairs(st.log)
    && st.stream == (origin.stream && Pairs(st.log) == [])
    && forall i :: 0 <= i < |st.log| ==> EventFits(s, origin, st.log[..i], st.log[i])
  }

  lemma {:induction false} PairsNext(log: seq<Event>, e: Event)
    ensures Pairs(log + [e]) == Pairs(log) + if e.Executed? then PairOf(e.call, e.reasoning, e.result) else []
  {
    assert (log + [e])[..|log|] == log;
  }

  lemma {:induction false} EventsFit(s: Setting, origin: State, log: seq<Event>, e: Event)
    requires forall i :: 0 <= i < |log| ==> EventFits(s, origin, log[..i], log[i])
    requires EventFits(s, origin, log, e)
    ensures forall i :: 0 <= i < |log + [e]| ==> EventFits(s, origin, (log + [e])[..i], (log + [e])[i])
  {
    forall i | 0 <= i < |log + [e]|
      ensures EventFits(s, origin, (log + [e])[..i], (log + [e])[i])
    {
      assert (log + [e])[..i] == if i < |log| then log[..i] else log;
    }
  }

  /** Any event but an execution leaves the conversation as it is. */
  lemma {:induction false} NotedIsConsistent(s: Setting, origin: State, st: State, e: Event)
    requires Consistent(s, origin, st) && !e.Executed? && EventFits(s, origin, st.log, e)
    ensures Consistent(s, origin, st.Noted(e))
  {
    PairsNext(st.log, e);
    assert Pairs(st.log) + [] == Pairs(st.log);
    EventsFit(s, origin, st.log, e);
  }

  lemma {:induction false} CallIsConsistent(s: Setting, origin: State, st: State, cand: Candidate)
    requires Consistent(s, origin, st)
    ensures Consistent(s, origin, Call(s, st, cand).st) && Consistent(s, origin, Attempt(s, st, cand).st)
  {
    NotedIsConsistent(s, origin, st, Called(cand, st.RequestTo(cand), Call(s, st, cand).value));
    NotedIsConsistent(s, origin, st, Streamed(cand, st.RequestTo(cand), Attempt(s, st, cand).value));
  }

  lemma {:induction false} RetryIsConsistent(s: Setting, origin: State, st: State, cand: Candidate, left: nat)
    requires Consistent(s, origin, st) && left > 0
    ensures Consistent(s, origin, Retry(s, st, cand, left).st)
    decreases left
  {
    CallIsConsistent(s, origin, st, cand);
    if left == 1 {
    } else {
      RetryIsConsistent(s, origin, Call(s, st, cand).st, cand, left - 1);
    }
  }

  lemma {:induction false} AgainIsConsistent(s: Setting, origin: State, st: State, cand: Candidate, left: nat)
    requires Consistent(s, origin, st) && left > 0
    ensures Consistent(s, origin, AttemptAgain(s, st, cand, left).st)
    decreases left
  {
    CallIsConsistent(s, origin, st, cand);
    if left == 1 {
    } else {
      AgainIsConsistent(s, origin, Attempt(s, st, cand).st, cand, left - 1);
    }
  }

  lemma {:induction false} AttemptsAreConsistent(s: Setting, origin: State, st: State, cand: Candidate, wire: Wire)
    requires Consistent(s, origin, st)
    ensures Consistent(s, origin, Attempts(s, st, cand, wire).st)
    ensures Consistent(s, origin, StreamAttempts(s, st, cand, wire).st)
  {
    CallIsConsistent(s, origin, st, cand);
    RetryIsConsistent(s, origin, Call(s, st, cand).st, cand, MAX_ATTEMPTS - 1);
    AgainIsConsistent(s, origin, Attempt(s, st, cand).st, cand, MAX_ATTEMPTS - 1);
  }

  /** Executing calls keeps the conversation; once any was executed the request no longer streams. */
  lemma {:induction false} ExecuteIsConsistent(s: Setting, origin: State, st: State, reasoning: string,
                                               calls: seq<ToolCall>)
    requires Consistent(s, origin, st) && forall c :: c in calls ==> s.Owned(c)
    ensures var after := Execute(s, st, reasoning, calls);
            && (calls != [] ==> Pairs(after.log) != [])
            && Consistent(s, origin, after.(stream := origin.stream && Pairs(after.log) == []))
  {
    if calls == [] {
    } else {
      var before, call := Execute(s, st, reasoning, calls[..|calls| - 1]), calls[|calls| - 1];
      ExecuteIsConsistent(s, origin, st, reasoning, calls[..|calls| - 1]);
      var e := Executed(call, reasoning, s.tool(before.log, call));
      PairsNext(before.log, e);
      Regroup(origin.messages, Pairs(before.log), PairOf(call, reasoning, e.result));
      EventsFit(s, origin, before.log, e);
    }
  }

  lemma {:induction false} ContinueIsConsistent(s: Setting, origin: State, st: State, cand: Candidate,
                                                resp: ChatResponse)
    requires Consistent(s, origin, st) && s.AllOwned(resp.toolCalls)
    ensures Consistent(s, origin, Continue(s, st, cand, resp).st)
  {
    var ready := Execute(s, st, resp.reasoning, resp.toolCalls).(stream := false);
    ExecuteIsConsistent(s, origin, st, resp.reasoning, resp.toolCalls);
    CallIsConsistent(s, origin, ready, cand);
    var next := Call(s, ready, cand);
    if next.value.Ok? {
      RememberingIsConsistent(s, origin, next.st, next.value.resp);
    }
  }

  lemma {:induction false} RememberingIsConsistent(s: Setting, origin: State, st: State, resp: ChatResponse)
    requires Consistent(s, origin, st)
    ensures Consistent(s, origin, st.Remembering(resp))
  {
    NotedIsConsistent(s, origin, st, Remembered(resp.toolCalls, resp.reasoning));
  }

  lemma {:induction false} ToolLoopIsConsistent(s: Setting, origin: State, st: State, cand: Candidate,
                                                resp: ChatResponse, left: nat)
    requires Consistent(s, origin, st)
    ensures Consistent(s, origin, ToolLoop(s, st, cand, resp, left).st)
    decreases left
  {
    if left == 0 {
      RememberingIsConsistent(s, origin, st, resp);
    } else if s.AllOwned(resp.toolCalls) {
      ContinueIsConsistent(s, origin, st, cand, resp);
      var next := Continue(s, st, cand, resp);
      if next.value.Ok? {
        ToolLoopIsConsistent(s, origin, next.st, cand, next.value.resp, left - 1);
      }
    }
  }

  lemma {:induction false} FinishIsConsistent(s: Setting, origin: State, st: State, cand: Candidate, resp: ChatResponse)
    requires Consistent(s, origin, st)
    ensures Consistent(s, origin, Finish(s, st, cand, resp).st)
  {
    var loop := ToolLoop(s, st.Remembering(resp), cand, resp, MAX_TOOL_ROUNDS);
    RememberingIsConsistent(s, origin, st, resp);
    ToolLoopIsConsistent(s, origin, st.Remembering(resp), cand, resp, MAX_TOOL_ROUNDS);
    NotedIsConsistent(s, origin, loop.st, Cooled(cand));
    NotedIsConsistent(s, origin, loop.st, Credited(cand));
  }

  lemma {:induction false} TryIsConsistent(s: Setting, origin: State, st: State, cand: Candidate, wire: Wire)
    requires Consistent(s, origin, st)
    ensures Consistent(s, origin, Try(s, st, cand, wire).st)
  {
    if cand.provider !in s.providers {
      NotedIsConsistent(s, origin, st, Cooled(cand));
    } else {
      var tried := Attempts(s, st, cand, wire);
      AttemptsAreConsistent(s, origin, st, cand, wire);
      if tried.value.Ok? {
        FinishIsConsistent(s, origin, tried.st, cand, tried.value.resp);
      } else {
        NotedIsConsistent(s, origin, tried.st, Cooled(cand));
      }
    }
  }

  /** The conversation invariant holds over a whole completion, across all tool rounds and all candidates. */
  lemma {:induction false} CompleteIsConsistent(s: Setting, origin: State, st: State, cands: seq<Candidate>, wire: Wire)
    requires Consistent(s, origin, st)
    ensures Consistent(s, origin, Complete(s, st, cands, wire).st)
    decreases |cands|
  {
    if cands == [] {
    } else {
      TryIsConsistent(s, origin, st, cands[0], wire);
      CompleteIsConsistent(s, origin, Try(s, st, cands[0], wire).st, cands[1..], wire);
    }
  }

  lemma {:induction false} StreamTryIsConsistent(s: Setting, origin: State, st: State, cand: Candidate, wire: Wire)
    requires Consistent(s, origin, st)
    ensures Consistent(s, origin, StreamTry(s, st, cand, wire).st)
  {
    if cand.provider !in s.providers {
      NotedIsConsistent(s, origin, st, Cooled(cand));
    } else {
      var tried := StreamAttempts(s, st, cand, wire);
      AttemptsAreConsistent(s, origin, st, cand, wire);
      NotedIsConsistent(s, origin, tried.st, Cooled(cand));
      if !tried.value.Empty() {
        NotedIsConsistent(s, origin, tried.st, Credited(cand));
      }
    }
  }

  lemma {:induction false} ServeIsConsistent(s: Setting, origin: State, st: State, cand: Candidate, capture: Captured)
    requires Consistent(s, origin, st)
    ensures Consistent(s, origin, Serve(s, st, cand, capture).st)
  {
    var resp := Collapse(capture.deltas);
    RememberingIsConsistent(s, origin, st, resp);
    ToolLoopIsConsistent(s, origin, st.Remembering(resp), cand, resp, MAX_TOOL_ROUNDS);
  }

  /** And over a whole stream, its tool rounds included. */
  lemma {:induction false} StreamIsConsistent(s: Setting, origin: State, st: State, cands: seq<Candidate>, wire: Wire)
    requires Consistent(s, origin, st)
    ensures Consistent(s, origin, Stream(s, st, cands, wire).st)
    decreases |cands|
  {
    if cands == [] {
    } else {
      var tried := StreamTry(s, st, cands[0], wire);
      StreamTryIsConsistent(s, origin, st, cands[0], wire);
      if tried.value.Some? {
        ServeIsConsistent(s, origin, tried.st, cands[0], tried.value.value);
      } else {
        StreamIsConsistent(s, origin, tried.st, cands[1..], wire);
      }
    }
  }

  /** A request starts consistent. */
  lemma {:induction false} StartIsConsistent(s: Setting, messages: seq<Message>, stream: bool)
    ensures Consistent(s, State([], messages, stream), State([], messages, stream))
  {
    assert messages + Pairs([]) == messages;
  }
}
