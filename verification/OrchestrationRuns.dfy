/** What every run of a request keeps, whatever the providers and the tools answer. */
module OrchestrationRuns {
  import opened Chat
  import opened Collections
  import opened Orchestration

  // ---- reading a log --------------------------------------------------------------------------

  /** The candidates called, in order. */
  function Calls(log: seq<Event>): seq<Candidate> {
    if log == [] then []
    else
      var e := log[|log| - 1];
      Calls(log[..|log| - 1]) + if e.Called? then [e.cand] else []
  }

  function Cools(log: seq<Event>): seq<Candidate> {
    if log == [] then []
    else
      var e := log[|log| - 1];
      Cools(log[..|log| - 1]) + if e.Cooled? then [e.cand] else []
  }

  function Credits(log: seq<Event>): seq<Candidate> {
    if log == [] then []
    else
      var e := log[|log| - 1];
      Credits(log[..|log| - 1]) + if e.Credited? then [e.cand] else []
  }

  /** The candidates streamed from, in order, and what each attempt captured. */
  function Streams(log: seq<Event>): seq<Candidate> {
    if log == [] then []
    else
      var e := log[|log| - 1];
      Streams(log[..|log| - 1]) + if e.Streamed? then [e.cand] else []
  }

  function Captures(log: seq<Event>): seq<Captured> {
    if log == [] then []
    else
      var e := log[|log| - 1];
      Captures(log[..|log| - 1]) + if e.Streamed? then [e.capture] else []
  }

  /** The messages the executed calls add: for each, the assistant's call and its result. */
  function Pairs(log: seq<Event>): seq<Message> {
    if log == [] then []
    else
      var e := log[|log| - 1];
      Pairs(log[..|log| - 1]) + if e.Executed? then PairOf(e.call, e.reasoning, e.result) else []
  }

  function Repeat(c: Candidate, n: nat): seq<Candidate> {
    if n == 0 then [] else Repeat(c, n - 1) + [c]
  }

  /** What one candidate's turn adds to the log: `n` calls and `m` streams, and how it was recorded. */
  ghost predicate Adds(before: State, after: State, cand: Candidate, n: nat, m: nat, cooled: bool, credited: bool) {
    && Calls(after.log) == Calls(before.log) + Repeat(cand, n)
    && Streams(after.log) == Streams(before.log) + Repeat(cand, m)
    && Cools(after.log) == Cools(before.log) + (if cooled then [cand] else [])
    && Credits(after.log) == Credits(before.log) + (if credited then [cand] else [])
  }

  lemma {:induction false} NotedAdds(st: State, cand: Candidate, e: Event)
    requires e.Executed? || e.Remembered? || e.cand == cand
    ensures Adds(st, st.Noted(e), cand, if e.Called? then 1 else 0, if e.Streamed? then 1 else 0,
                 e.Cooled?, e.Credited?)
  {
    assert st.Noted(e).log[..|st.log|] == st.log;
    assert Repeat(cand, 1) == [] + [cand];
  }

  lemma {:induction false} RepeatSum(c: Candidate, n: nat, m: nat)
    ensures Repeat(c, n) + Repeat(c, m) == Repeat(c, n + m)
  {
    if m == 0 {
    } else {
      RepeatSum(c, n, m - 1);
    }
  }

  lemma {:induction false} AddsBoth(a: State, b: State, c: State, cand: Candidate, n: nat, m: nat, n': nat, m': nat,
                                    cooled: bool, credited: bool)
    requires Adds(a, b, cand, n, m, false, false) && Adds(b, c, cand, n', m', cooled, credited)
    ensures Adds(a, c, cand, n + n', m + m', cooled, credited)
  {
    RepeatSum(cand, n, n');
    RepeatSum(cand, m, m');
  }

  lemma {:induction false} AddsNothing(st: State, st': State, cand: Candidate)
    requires st.log == st'.log
    ensures Adds(st, st', cand, 0, 0, false, false)
  {
  }

  // ---- one candidate --------------------------------------------------------------------------

  lemma {:induction false} RetryAdds(s: Setting, st: State, cand: Candidate, left: nat) returns (n: nat)
    requires left > 0
    ensures 1 <= n <= left && Adds(st, Retry(s, st, cand, left).st, cand, n, 0, false, false)
    decreases left
  {
    var again := Call(s, st, cand);
    NotedAdds(st, cand, Called(cand, st.RequestTo(cand), again.value));
    n := 1;
    if again.value.Err? && left > 1 {
      n := RetryAdds(s, again.st, cand, left - 1);
      AddsBoth(st, again.st, Retry(s, st, cand, left).st, cand, 1, 0, n, 0, false, false);
      n := n + 1;
    }
  }

  /** A candidate is asked at most three times, and once only unless the first error is worth a retry. */
  lemma {:induction false} AttemptsAdd(s: Setting, st: State, cand: Candidate, wire: Wire) returns (n: nat)
    ensures Adds(st, Attempts(s, st, cand, wire).st, cand, n, 0, false, false)
    ensures 1 <= n <= 3
    ensures var first := Call(s, st, cand).value;
            wire.Anthropic? || first.Ok? || !first.error.Retryable() ==> n == 1
  {
    var first := Call(s, st, cand);
    NotedAdds(st, cand, Called(cand, st.RequestTo(cand), first.value));
    n := 1;
    if wire.OpenAI? && first.value.Err? && first.value.error.Retryable() {
      n := RetryAdds(s, first.st, cand, MAX_ATTEMPTS - 1);
      AddsBoth(st, first.st, Attempts(s, st, cand, wire).st, cand, 1, 0, n, 0, false, false);
      n := n + 1;
    }
  }

  lemma {:induction false} ExecuteAdds(s: Setting, st: State, cand: Candidate, reasoning: string, calls: seq<ToolCall>)
    ensures Adds(st, Execute(s, st, reasoning, calls), cand, 0, 0, false, false)
  {
    if calls == [] {
      AddsNothing(st, st, cand);
    } else {
      var before, call := Execute(s, st, reasoning, calls[..|calls| - 1]), calls[|calls| - 1];
      ExecuteAdds(s, st, cand, reasoning, calls[..|calls| - 1]);
      var e := Executed(call, reasoning, s.tool(before.log, call));
      NotedAdds(before, cand, e);
      AddsBoth(st, before, before.Noted(e), cand, 0, 0, 0, 0, false, false);
    }
  }

  lemma {:induction false} RememberingAdds(st: State, cand: Candidate, resp: ChatResponse)
    ensures Adds(st, st.Remembering(resp), cand, 0, 0, false, false)
  {
    NotedAdds(st, cand, Remembered(resp.toolCalls, resp.reasoning));
  }

  lemma {:induction false} ContinueAdds(s: Setting, st: State, cand: Candidate, resp: ChatResponse)
    ensures Adds(st, Continue(s, st, cand, resp).st, cand, 1, 0, false, false)
  {
    var ready := Execute(s, st, resp.reasoning, resp.toolCalls).(stream := false);
    var next := Call(s, ready, cand);
    ExecuteAdds(s, st, cand, resp.reasoning, resp.toolCalls);
    NotedAdds(ready, cand, Called(cand, ready.RequestTo(cand), next.value));
    AddsBoth(st, ready, next.st, cand, 0, 0, 1, 0, false, false);
    if next.value.Ok? {
      RememberingAdds(next.st, cand, next.value.resp);
      AddsBoth(st, next.st, next.st.Remembering(next.value.resp), cand, 1, 0, 0, 0, false, false);
    }
  }

  /** At most `left` continuations; an all-owned batch is handed back only when all of them were used. */
  lemma {:induction false} ToolLoopAdds(s: Setting, st: State, cand: Candidate, resp: ChatResponse, left: nat)
    returns (n: nat)
    ensures var loop := ToolLoop(s, st, cand, resp, left);
            && Adds(st, loop.st, cand, n, 0, false, false)
            && n <= left
            && (loop.value.Ok? && s.AllOwned(loop.value.resp.toolCalls) ==> n == left)
    decreases left
  {
    n := 0;
    if left == 0 {
      RememberingAdds(st, cand, resp);
    } else if !s.AllOwned(resp.toolCalls) {
      AddsNothing(st, st, cand);
    } else {
      var next := Continue(s, st, cand, resp);
      ContinueAdds(s, st, cand, resp);
      n := 1;
      if next.value.Ok? {
        var m := ToolLoopAdds(s, next.st, cand, next.value.resp, left - 1);
        AddsBoth(st, next.st, ToolLoop(s, next.st, cand, next.value.resp, left - 1).st, cand, 1, 0, m, 0, false, false);
        n := 1 + m;
      }
    }
  }

  /** The loop as it is entered: the response is remembered first. */
  lemma {:induction false} EnteredLoopAdds(s: Setting, st: State, cand: Candidate, resp: ChatResponse, left: nat)
    returns (n: nat)
    ensures var loop := ToolLoop(s, st.Remembering(resp), cand, resp, left);
            && n <= left && Adds(st, loop.st, cand, n, 0, false, false)
            && (loop.value.Ok? && s.AllOwned(loop.value.resp.toolCalls) ==> n == left)
  {
    var ready := st.Remembering(resp);
    RememberingAdds(st, cand, resp);
    n := ToolLoopAdds(s, ready, cand, resp, left);
    AddsBoth(st, ready, ToolLoop(s, ready, cand, resp, left).st, cand, 0, 0, n, 0, false, false);
  }

  predicate LoopFails(s: Setting, st: State, cand: Candidate, resp: ChatResponse) {
    ToolLoop(s, st.Remembering(resp), cand, resp, MAX_TOOL_ROUNDS).value.Err?
  }

  /** The candidate ends up cooling: unknown provider, a first answer that cools at once, or a failed tool loop. */
  ghost predicate CoolsDown(s: Setting, st: State, cand: Candidate, wire: Wire) {
    || cand.provider !in s.providers
    || CoolsAtOnce(s, st, cand, wire)
    || (var tried := Attempts(s, st, cand, wire);
        tried.value.Ok? && LoopFails(s, tried.st, cand, tried.value.resp))
  }

  /**
   * The tail of a successful attempt: credited when the tool loop serves, cooled when it fails. There are at most five
   * continuations, and server calls are only served when all five were used.
   */
  lemma {:induction false} FinishAdds(s: Setting, st: State, cand: Candidate, resp: ChatResponse) returns (n: nat)
    ensures var finished := Finish(s, st, cand, resp);
            var failed := LoopFails(s, st, cand, resp);
            && n <= 5
            && (finished.value.Some? && s.AllOwned(finished.value.value.toolCalls) ==> n == 5)
            && (finished.value.Some? <==> !failed)
            && Adds(st, finished.st, cand, n, 0, failed, !failed)
  {
    var loop := ToolLoop(s, st.Remembering(resp), cand, resp, MAX_TOOL_ROUNDS);
    n := EnteredLoopAdds(s, st, cand, resp, MAX_TOOL_ROUNDS);
    var last := if loop.value.Ok? then Credited(cand) else Cooled(cand);
    NotedAdds(loop.st, cand, last);
    AddsBoth(st, loop.st, loop.st.Noted(last), cand, n, 0, 0, 0, last.Cooled?, last.Credited?);
  }

  /**
   * One candidate's turn: at most three attempts and five continuations; exactly one call when the first answer is a
   * rate limit or a permanent error; cooled exactly when `CoolsDown`; credited exactly when it serves.
   */
  lemma {:induction false} TryAdds(s: Setting, st: State, cand: Candidate, wire: Wire) returns (n: nat)
    ensures var tried := Try(s, st, cand, wire);
            Adds(st, tried.st, cand, n, 0, CoolsDown(s, st, cand, wire), tried.value.Some?)
    ensures n <= 8
    ensures n == 0 <==> cand.provider !in s.providers
    ensures var first := Call(s, st, cand).value;
            cand.provider in s.providers && first.Err? && (wire.Anthropic? || !first.error.Retryable()) ==> n == 1
  {
    if cand.provider !in s.providers {
      NotedAdds(st, cand, Cooled(cand));
      n := 0;
    } else {
      n := KnownTryAdds(s, st, cand, wire);
    }
  }

  lemma {:induction false} KnownTryAdds(s: Setting, st: State, cand: Candidate, wire: Wire) returns (n: nat)
    requires cand.provider in s.providers
    ensures var tried := Try(s, st, cand, wire);
            1 <= n <= 8 && Adds(st, tried.st, cand, n, 0, CoolsDown(s, st, cand, wire), tried.value.Some?)
    ensures var first := Call(s, st, cand).value;
            first.Err? && (wire.Anthropic? || !first.error.Retryable()) ==> n == 1
  {
    n := AttemptsAdd(s, st, cand, wire);
    if Attempts(s, st, cand, wire).value.Ok? {
      var m := SuccessAdds(s, st, cand, wire, n);
      n := n + m;
    } else {
      FailureAdds(s, st, cand, wire, n);
    }
  }

  lemma {:induction false} FailureAdds(s: Setting, st: State, cand: Candidate, wire: Wire, n: nat)
    requires cand.provider in s.providers && Attempts(s, st, cand, wire).value.Err?
    requires Adds(st, Attempts(s, st, cand, wire).st, cand, n, 0, false, false)
    ensures var tried := Try(s, st, cand, wire);
            tried.value.None? && Adds(st, tried.st, cand, n, 0, CoolsDown(s, st, cand, wire), false)
  {
    var tried := Attempts(s, st, cand, wire);
    if CoolsAtOnce(s, st, cand, wire) {
      NotedAdds(tried.st, cand, Cooled(cand));
      AddsBoth(st, tried.st, tried.st.Noted(Cooled(cand)), cand, n, 0, 0, 0, true, false);
    }
  }

  lemma {:induction false} SuccessAdds(s: Setting, st: State, cand: Candidate, wire: Wire, n: nat) returns (m: nat)
    requires cand.provider in s.providers && Attempts(s, st, cand, wire).value.Ok?
    requires Adds(st, Attempts(s, st, cand, wire).st, cand, n, 0, false, false)
    ensures var tried := Try(s, st, cand, wire);
            && m <= 5
            && Adds(st, tried.st, cand, n + m, 0, CoolsDown(s, st, cand, wire), tried.value.Some?)
    ensures !CoolsAtOnce(s, st, cand, wire)
  {
    var tried := Attempts(s, st, cand, wire);
    var failed := LoopFails(s, tried.st, cand, tried.value.resp);
    m := FinishAdds(s, tried.st, cand, tried.value.resp);
    AddsBoth(st, tried.st, Finish(s, tried.st, cand, tried.value.resp).st, cand, n, 0, m, 0, failed, !failed);
  }

  // ---- failover over all candidates -----------------------------------------------------------

  /** `s` is a block of at most `limit` entries for each candidate, in the candidates' order. */
  ghost predicate InOrder(s: seq<Candidate>, cands: seq<Candidate>, limit: nat) {
    if cands == [] then s == []
    else exists n: nat :: n <= limit && n <= |s| && s[..n] == Repeat(cands[0], n) && InOrder(s[n..], cands[1..], limit)
  }

  lemma {:induction false} OrderNone(cands: seq<Candidate>, limit: nat)
    ensures InOrder([], cands, limit)
  {
    if cands == [] {
    } else {
      OrderNone(cands[1..], limit);
      var s: seq<Candidate> := [];
      assert s[..0] == Repeat(cands[0], 0) && s[0..] == [];
    }
  }

  lemma {:induction false} OrderCons(n: nat, rest: seq<Candidate>, cands: seq<Candidate>, limit: nat)
    requires cands != [] && n <= limit && InOrder(rest, cands[1..], limit)
    ensures InOrder(Repeat(cands[0], n) + rest, cands, limit)
  {
    RepeatLength(cands[0], n);
    var s := Repeat(cands[0], n) + rest;
    assert s[..n] == Repeat(cands[0], n) && s[n..] == rest;
  }

  lemma {:induction false} RepeatLength(c: Candidate, n: nat)
    ensures |Repeat(c, n)| == n
  {
    if n == 0 {
    } else {
      RepeatLength(c, n - 1);
    }
  }

  /** How many candidates are passed over before one serves, if any does. */
  ghost function Passed(s: Setting, st: State, cands: seq<Candidate>, wire: Wire): (k: nat)
    ensures k <= |cands|
    decreases |cands|
  {
    if cands == [] then 0
    else
      var tried := Try(s, st, cands[0], wire);
      if tried.value.Some? then 0 else 1 + Passed(s, tried.st, cands[1..], wire)
  }

  /** The candidates cooled by the run, in order: those tried that meet `CoolsDown` when their turn comes. */
  ghost function CooledBy(s: Setting, st: State, cands: seq<Candidate>, wire: Wire): seq<Candidate>
    decreases |cands|
  {
    if cands == [] then []
    else
      var tried := Try(s, st, cands[0], wire);
      (if CoolsDown(s, st, cands[0], wire) then [cands[0]] else [])
      + if tried.value.Some? then [] else CooledBy(s, tried.st, cands[1..], wire)
  }

  /** What a run adds to the log. */
  ghost predicate Went(before: State, after: State, calls: seq<Candidate>, cools: seq<Candidate>,
                       credits: seq<Candidate>) {
    && Calls(after.log) == Calls(before.log) + calls
    && Cools(after.log) == Cools(before.log) + cools
    && Credits(after.log) == Credits(before.log) + credits
  }

  lemma {:induction false} WentBoth(a: State, b: State, c: State, calls: seq<Candidate>, cools: seq<Candidate>,
                                    credits: seq<Candidate>, calls': seq<Candidate>, cools': seq<Candidate>,
                                    credits': seq<Candidate>)
    requires Went(a, b, calls, cools, credits) && Went(b, c, calls', cools', credits')
    ensures Went(a, c, calls + calls', cools + cools', credits + credits')
  {
    Regroup(Calls(a.log), calls, calls');
    Regroup(Cools(a.log), cools, cools');
    Regroup(Credits(a.log), credits, credits');
  }

  /** The candidate credited by the run, if any. */
  ghost function CreditedBy(s: Setting, st: State, cands: seq<Candidate>, wire: Wire): seq<Candidate> {
    var k := Passed(s, st, cands, wire);
    if k < |cands| then [cands[k]] else []
  }

  /** The run ends at its first candidate. */
  lemma {:induction false} ServedRun(s: Setting, st: State, cands: seq<Candidate>, wire: Wire, n: nat)
    requires cands != []
    requires var tried := Try(s, st, cands[0], wire);
             tried.value.Some? && Adds(st, tried.st, cands[0], n, 0, CoolsDown(s, st, cands[0], wire), true)
    ensures Went(st, Complete(s, st, cands, wire).st, Repeat(cands[0], n) + [], CooledBy(s, st, cands, wire),
                 CreditedBy(s, st, cands, wire))
  {
    var mine := if CoolsDown(s, st, cands[0], wire) then [cands[0]] else [];
    assert Repeat(cands[0], n) + [] == Repeat(cands[0], n) && mine + [] == mine;
  }

  /** The run passes its first candidate over. */
  lemma {:induction false} PassedRun(s: Setting, st: State, cands: seq<Candidate>, wire: Wire, n: nat,
                                     rest: seq<Candidate>)
    requires cands != []
    requires var tried := Try(s, st, cands[0], wire);
             && tried.value.None? && Adds(st, tried.st, cands[0], n, 0, CoolsDown(s, st, cands[0], wire), false)
             && Went(tried.st, Complete(s, tried.st, cands[1..], wire).st, rest,
                     CooledBy(s, tried.st, cands[1..], wire), CreditedBy(s, tried.st, cands[1..], wire))
    ensures Went(st, Complete(s, st, cands, wire).st, Repeat(cands[0], n) + rest, CooledBy(s, st, cands, wire),
                 CreditedBy(s, st, cands, wire))
  {
    var tried := Try(s, st, cands[0], wire);
    var mine := if CoolsDown(s, st, cands[0], wire) then [cands[0]] else [];
    WentBoth(st, tried.st, Complete(s, tried.st, cands[1..], wire).st, Repeat(cands[0], n), mine, [], rest,
             CooledBy(s, tried.st, cands[1..], wire), CreditedBy(s, tried.st, cands[1..], wire));
    assert [] + CreditedBy(s, tried.st, cands[1..], wire) == CreditedBy(s, st, cands, wire);
  }

  /**
   * The failover run. Candidates are called in snapshot order, each at most eight times. The first that serves is the
   * one served and the only one credited; without one there is nothing to serve and nobody is credited. The cooled
   * candidates are exactly `CooledBy`.
   */
  lemma {:induction false} FailoverRun(s: Setting, st: State, cands: seq<Candidate>, wire: Wire)
    returns (calls: seq<Candidate>)
    ensures Went(st, Complete(s, st, cands, wire).st, calls, CooledBy(s, st, cands, wire),
                 CreditedBy(s, st, cands, wire))
    ensures InOrder(calls, cands, 8)
    ensures var run := Complete(s, st, cands, wire);
            var k := Passed(s, st, cands, wire);
            && (run.value.Some? <==> k < |cands|)
            && (run.value.Some? ==> run.value.value.cand == cands[k])
    decreases |cands|
  {
    calls := [];
    if cands == [] {
    } else {
      var tried := Try(s, st, cands[0], wire);
      var n := TryAdds(s, st, cands[0], wire);
      var rest := [];
      if tried.value.Some? {
        OrderNone(cands[1..], 8);
        ServedRun(s, st, cands, wire, n);
      } else {
        rest := FailoverRun(s, tried.st, cands[1..], wire);
        PassedRun(s, st, cands, wire, n, rest);
      }
      OrderCons(n, rest, cands, 8);
      calls := Repeat(cands[0], n) + rest;
    }
  }

  // ---- failures that are cooled, although they are no rate limits -----------------------------

  /** One candidate's completion, whose first call ends in `first` and every other in an error. */
  function Completing(provider: string, tools: set<string>, first: Outcome): Setting {
    Setting({provider}, tools, {}, (log, cand, req) => if log == [] then first else Err(Transport),
            (log, cand, req) => Captured([], None), (log, call) => "", error => "")
  }

  lemma {:induction false} LoneCandidate(s: Setting, st: State, cand: Candidate, wire: Wire)
    requires st.log == [] && CoolsDown(s, st, cand, wire) && Try(s, st, cand, wire).value.None?
    ensures var run := Complete(s, st, [cand], wire);
            run.value.None? && Cools(run.st.log) == [cand] && Credits(run.st.log) == []
  {
    var calls := FailoverRun(s, st, [cand], wire);
    var after := Try(s, st, cand, wire).st;
    assert [cand][1..] == [] && CooledBy(s, after, [], wire) == [];
    assert CooledBy(s, st, [cand], wire) == [cand] + [] == [cand] && [] + [cand] == [cand];
    assert Passed(s, st, [cand], wire) == 1;
  }

  /** On the Anthropic wire any error cools, such as a connection that failed. */
  lemma {:induction false} TransientErrorIsCooled(cand: Candidate)
    ensures var s := Completing(cand.provider, {}, Err(Transport));
            var run := Complete(s, State([], [], false), [cand], Anthropic);
            run.value.None? && Cools(run.st.log) == [cand] && Credits(run.st.log) == []
  {
    LoneCandidate(Completing(cand.provider, {}, Err(Transport)), State([], [], false), cand, Anthropic);
  }

  lemma {:induction false} LoopStops(s: Setting, st: State, cand: Candidate, resp: ChatResponse, left: nat,
                                     error: Failure)
    requires left > 0 && s.AllOwned(resp.toolCalls) && Continue(s, st, cand, resp).value == Err(error)
    ensures ToolLoop(s, st, cand, resp, left).value == Err(error)
  {
  }

  /** On either wire, so does a tool loop that fails. */
  lemma {:induction false} FailedToolsAreCooled(cand: Candidate, wire: Wire)
    ensures var resp := ChatResponse("", "", "", "tool_calls", NO_USAGE, [ToolCall("1", "t", "{}")], "");
            var run := Complete(Completing(cand.provider, {"t"}, Ok(resp)), State([], [], false), [cand], wire);
            run.value.None? && Cools(run.st.log) == [cand] && Credits(run.st.log) == []
  {
    var resp := ChatResponse("", "", "", "tool_calls", NO_USAGE, [ToolCall("1", "t", "{}")], "");
    var s, st := Completing(cand.provider, {"t"}, Ok(resp)), State([], [], false);
    var tried := Attempts(s, st, cand, wire);
    assert tried.value == Ok(resp) && s.AllOwned(resp.toolCalls);
    LoopStops(s, tried.st.Remembering(resp), cand, resp, MAX_TOOL_ROUNDS, Transport);
    LoneCandidate(s, st, cand, wire);
  }
}
