/**
 * What every streaming run keeps: attempts are never mixed, and who is cooled or credited is settled by the streams
 * alone.
 */
module StreamRuns {
  import opened Chat
  import opened Collections
  import opened Capture
  import opened Orchestration
  import opened OrchestrationRuns

  // ---- attempts -------------------------------------------------------------------------------

  /** The attempts in `captures` all failed before they delivered anything. */
  ghost predicate AllEmpty(captures: seq<Captured>) {
    forall c :: c in captures ==> c.Empty()
  }

  lemma {:induction false} CapturesNext(log: seq<Event>, e: Event)
    ensures Captures(log + [e]) == Captures(log) + if e.Streamed? then [e.capture] else []
  {
    assert (log + [e])[..|log|] == log;
  }

  lemma {:induction false} ExecuteCaptures(s: Setting, st: State, reasoning: string, calls: seq<ToolCall>)
    ensures Captures(Execute(s, st, reasoning, calls).log) == Captures(st.log)
  {
    if calls == [] {
    } else {
      var before, call := Execute(s, st, reasoning, calls[..|calls| - 1]), calls[|calls| - 1];
      ExecuteCaptures(s, st, reasoning, calls[..|calls| - 1]);
      CapturesNext(before.log, Executed(call, reasoning, s.tool(before.log, call)));
    }
  }

  lemma {:induction false} RememberingCaptures(st: State, resp: ChatResponse)
    ensures Captures(st.Remembering(resp).log) == Captures(st.log)
  {
    CapturesNext(st.log, Remembered(resp.toolCalls, resp.reasoning));
  }

  lemma {:induction false} ContinueCaptures(s: Setting, st: State, cand: Candidate, resp: ChatResponse)
    ensures Captures(Continue(s, st, cand, resp).st.log) == Captures(st.log)
  {
    var ready := Execute(s, st, resp.reasoning, resp.toolCalls).(stream := false);
    var next := Call(s, ready, cand);
    ExecuteCaptures(s, st, resp.reasoning, resp.toolCalls);
    CapturesNext(ready.log, Called(cand, ready.RequestTo(cand), next.value));
    if next.value.Ok? {
      RememberingCaptures(next.st, next.value.resp);
    }
  }

  /** The tool loop starts no stream. */
  lemma {:induction false} ToolLoopCaptures(s: Setting, st: State, cand: Candidate, resp: ChatResponse, left: nat)
    ensures Captures(ToolLoop(s, st, cand, resp, left).st.log) == Captures(st.log)
    decreases left
  {
    if left == 0 {
      RememberingCaptures(st, resp);
    } else if s.AllOwned(resp.toolCalls) {
      ContinueCaptures(s, st, cand, resp);
      var next := Continue(s, st, cand, resp);
      if next.value.Ok? {
        ToolLoopCaptures(s, next.st, cand, next.value.resp, left - 1);
      }
    }
  }

  /** A run of attempts: all but the last, `last`, failed empty. */
  ghost predicate EndsIn(before: State, after: State, failed: seq<Captured>, last: Captured) {
    AllEmpty(failed) && Captures(after.log) == Captures(before.log) + failed + [last]
  }

  lemma {:induction false} AttemptCaptures(s: Setting, st: State, cand: Candidate)
    ensures EndsIn(st, Attempt(s, st, cand).st, [], Attempt(s, st, cand).value)
    ensures Adds(st, Attempt(s, st, cand).st, cand, 0, 1, false, false)
  {
    var e := Streamed(cand, st.RequestTo(cand), Attempt(s, st, cand).value);
    CapturesNext(st.log, e);
    NotedAdds(st, cand, e);
    assert Captures(st.log) + [] == Captures(st.log);
  }

  lemma {:induction false} EmptyThen(a: State, b: State, c: State, first: Captured, failed: seq<Captured>,
                                     last: Captured)
    requires EndsIn(a, b, [], first) && first.Empty() && EndsIn(b, c, failed, last)
    ensures EndsIn(a, c, [first] + failed, last)
  {
    assert Captures(a.log) + [] == Captures(a.log);
    Regroup(Captures(a.log), [first], failed);
  }

  lemma {:induction false} AgainCaptures(s: Setting, st: State, cand: Candidate, left: nat)
    returns (failed: seq<Captured>, m: nat)
    requires left > 0
    ensures var again := AttemptAgain(s, st, cand, left);
            && EndsIn(st, again.st, failed, again.value)
            && 1 <= m <= left && Adds(st, again.st, cand, 0, m, false, false)
    decreases left
  {
    var again := Attempt(s, st, cand);
    AttemptCaptures(s, st, cand);
    failed, m := [], 1;
    if again.value.Empty() && left > 1 {
      failed, m := AgainCaptures(s, again.st, cand, left - 1);
      var last := AttemptAgain(s, st, cand, left);
      EmptyThen(st, again.st, last.st, again.value, failed, last.value);
      AddsBoth(st, again.st, last.st, cand, 0, 1, 0, m, false, false);
      failed, m := [again.value] + failed, m + 1;
    }
  }

  /** An attempt that failed empty, and up to `left` more. */
  lemma {:induction false} AgainAfter(s: Setting, st: State, cand: Candidate, left: nat)
    returns (failed: seq<Captured>, m: nat)
    requires left > 0 && Attempt(s, st, cand).value.Empty()
    ensures var last := AttemptAgain(s, Attempt(s, st, cand).st, cand, left);
            && EndsIn(st, last.st, failed, last.value)
            && 1 <= m <= left + 1 && Adds(st, last.st, cand, 0, m, false, false)
  {
    var first := Attempt(s, st, cand);
    AttemptCaptures(s, st, cand);
    failed, m := AgainCaptures(s, first.st, cand, left);
    var last := AttemptAgain(s, first.st, cand, left);
    EmptyThen(st, first.st, last.st, first.value, failed, last.value);
    AddsBoth(st, first.st, last.st, cand, 0, 1, 0, m, false, false);
    failed, m := [first.value] + failed, m + 1;
  }

  lemma {:induction false} StreamAttemptsCapture(s: Setting, st: State, cand: Candidate, wire: Wire)
    returns (failed: seq<Captured>, m: nat)
    ensures var tried := StreamAttempts(s, st, cand, wire);
            && EndsIn(st, tried.st, failed, tried.value)
            && 1 <= m <= 3 && Adds(st, tried.st, cand, 0, m, false, false)
    ensures var first := Attempt(s, st, cand).value;
            wire.Anthropic? || !first.Empty() || !first.error.value.Retryable() ==> m == 1
  {
    AttemptCaptures(s, st, cand);
    failed, m := [], 1;
    var first := Attempt(s, st, cand);
    if wire.OpenAI? && first.value.Empty() && first.value.error.value.Retryable() {
      failed, m := AgainAfter(s, st, cand, MAX_ATTEMPTS - 1);
    }
  }

  // ---- one candidate --------------------------------------------------------------------------

  /** The candidate ends up cooling: unknown provider, a first failure that cools at once, or a stream broken off. */
  ghost predicate StreamCoolsDown(s: Setting, st: State, cand: Candidate, wire: Wire) {
    || cand.provider !in s.providers
    || StreamCoolsAtOnce(s, st, cand, wire)
    || (var last := StreamAttempts(s, st, cand, wire).value;
        wire.Anthropic? && !last.Empty() && last.EndedInError())
  }

  ghost predicate StreamCredits(s: Setting, st: State, cand: Candidate, wire: Wire) {
    var last := StreamAttempts(s, st, cand, wire).value;
    cand.provider in s.providers && !last.Empty() && !last.EndedInError()
  }

  /** A stream that delivered is recorded by how it ended, before anything is made of it. */
  lemma {:induction false} JudgedAdds(st: State, cand: Candidate, capture: Captured, wire: Wire)
    ensures Adds(st, Judge(st, cand, capture, wire), cand, 0, 0,
                 wire.Anthropic? && capture.EndedInError(), !capture.EndedInError())
    ensures Captures(Judge(st, cand, capture, wire).log) == Captures(st.log)
  {
    NotedAdds(st, cand, Credited(cand));
    NotedAdds(st, cand, Cooled(cand));
    CapturesNext(st.log, Credited(cand));
    CapturesNext(st.log, Cooled(cand));
    AddsNothing(st, st, cand);
  }

  lemma {:induction false} PassedOverAdds(s: Setting, st: State, cand: Candidate, wire: Wire)
    requires cand.provider in s.providers && StreamAttempts(s, st, cand, wire).value.Empty()
    ensures var tried, made := StreamTry(s, st, cand, wire), StreamAttempts(s, st, cand, wire).st;
            && tried.value.None?
            && Adds(made, tried.st, cand, 0, 0, StreamCoolsDown(s, st, cand, wire), false)
            && Captures(tried.st.log) == Captures(made.log)
  {
    var made := StreamAttempts(s, st, cand, wire).st;
    NotedAdds(made, cand, Cooled(cand));
    CapturesNext(made.log, Cooled(cand));
    AddsNothing(made, made, cand);
  }

  lemma {:induction false} ServedCools(s: Setting, st: State, cand: Candidate, wire: Wire)
    requires cand.provider in s.providers && !StreamAttempts(s, st, cand, wire).value.Empty()
    ensures var last := StreamAttempts(s, st, cand, wire).value;
            && (StreamCoolsDown(s, st, cand, wire) <==> wire.Anthropic? && last.EndedInError())
            && (StreamCredits(s, st, cand, wire) <==> !last.EndedInError())
  {
  }

  /**
   * One candidate's turn: at most three streams, exactly one unless the first failed empty with an error worth a
   * retry; cooled exactly when `StreamCoolsDown` and credited exactly when `StreamCredits`.
   */
  lemma {:induction false} StreamTryAdds(s: Setting, st: State, cand: Candidate, wire: Wire) returns (m: nat)
    ensures Adds(st, StreamTry(s, st, cand, wire).st, cand, 0, m,
                 StreamCoolsDown(s, st, cand, wire), StreamCredits(s, st, cand, wire))
    ensures m <= 3 && (m == 0 <==> cand.provider !in s.providers)
    ensures var first := Attempt(s, st, cand).value;
            cand.provider in s.providers && (wire.Anthropic? || !first.Empty() || !first.error.value.Retryable())
            ==> m == 1
  {
    if cand.provider !in s.providers {
      NotedAdds(st, cand, Cooled(cand));
      m := 0;
    } else {
      var made, after := StreamAttempts(s, st, cand, wire), StreamTry(s, st, cand, wire).st;
      var failed;
      failed, m := StreamAttemptsCapture(s, st, cand, wire);
      if made.value.Empty() {
        PassedOverAdds(s, st, cand, wire);
      } else {
        JudgedAdds(made.st, cand, made.value, wire);
        ServedCools(s, st, cand, wire);
      }
      AddsBoth(st, made.st, after, cand, 0, m, 0, 0,
               StreamCoolsDown(s, st, cand, wire), StreamCredits(s, st, cand, wire));
    }
  }

  /**
   * One candidate's stream: it is passed over only when all its attempts failed empty; the attempt that did not is the
   * last one, and what it captured is what is handed on.
   */
  lemma {:induction false} StreamTryCaptures(s: Setting, st: State, cand: Candidate, wire: Wire)
    returns (failed: seq<Captured>)
    ensures var tried := StreamTry(s, st, cand, wire);
            && AllEmpty(failed)
            && Captures(tried.st.log) == Captures(st.log) + failed
                                         + (if tried.value.Some? then [tried.value.value] else [])
            && (tried.value.Some? ==> !tried.value.value.Empty())
  {
    if cand.provider !in s.providers {
      CapturesNext(st.log, Cooled(cand));
      failed := [];
    } else {
      var made := StreamAttempts(s, st, cand, wire);
      var m;
      failed, m := StreamAttemptsCapture(s, st, cand, wire);
      if made.value.Empty() {
        PassedOverAdds(s, st, cand, wire);
        Regroup(Captures(st.log), failed, [made.value]);
        failed := failed + [made.value];
        PlusNothing(Captures(st.log) + failed);
      } else {
        JudgedAdds(made.st, cand, made.value, wire);
      }
    }
  }

  // ---- failover over all candidates -----------------------------------------------------------

  /** The candidate loop up to the stream it serves, and the state that stream is served from. */
  ghost function Picked(s: Setting, st: State, cands: seq<Candidate>, wire: Wire): Step<Option<Served<Captured>>>
    decreases |cands|
  {
    if cands == [] then Step(st, None)
    else
      var tried := StreamTry(s, st, cands[0], wire);
      if tried.value.Some? then Step(tried.st, Some(Served(cands[0], tried.value.value)))
      else Picked(s, tried.st, cands[1..], wire)
  }

  /** A run picks one stream and serves it. */
  lemma {:induction false} StreamIsPicked(s: Setting, st: State, cands: seq<Candidate>, wire: Wire)
    ensures var run, picked := Stream(s, st, cands, wire), Picked(s, st, cands, wire);
            if picked.value.None? then run.st == picked.st && run.value.None?
            else
              var cand, served := picked.value.value.cand,
                  Serve(s, picked.st, picked.value.value.cand, picked.value.value.value);
              run.st == served.st && run.value == Some(Served(cand, served.value))
    decreases |cands|
  {
    if cands == [] {
    } else {
      var tried := StreamTry(s, st, cands[0], wire);
      if tried.value.None? {
        StreamIsPicked(s, tried.st, cands[1..], wire);
      }
    }
  }

  /** How many candidates are passed over before one delivers, if any does. */
  ghost function StreamPassed(s: Setting, st: State, cands: seq<Candidate>, wire: Wire): (k: nat)
    ensures k <= |cands|
    decreases |cands|
  {
    if cands == [] then 0
    else
      var tried := StreamTry(s, st, cands[0], wire);
      if tried.value.Some? then 0 else 1 + StreamPassed(s, tried.st, cands[1..], wire)
  }

  /** All attempts of a run: the failed ones, and the delivered one if the run served. */
  ghost predicate Attempted(before: State, after: State, failed: seq<Captured>, delivered: Option<Captured>,
                            streams: seq<Candidate>) {
    && AllEmpty(failed)
    && (delivered.Some? ==> !delivered.value.Empty())
    && Captures(after.log) == Captures(before.log) + failed + (if delivered.Some? then [delivered.value] else [])
    && Streams(after.log) == Streams(before.log) + streams
  }

  lemma {:induction false} AttemptedBoth(a: State, b: State, c: State, failed: seq<Captured>, streams: seq<Candidate>,
                                         failed': seq<Captured>, delivered: Option<Captured>, streams': seq<Candidate>)
    requires Attempted(a, b, failed, None, streams) && Attempted(b, c, failed', delivered, streams')
    ensures Attempted(a, c, failed + failed', delivered, streams + streams')
  {
    var last := if delivered.Some? then [delivered.value] else [];
    assert Captures(b.log) == Captures(a.log) + failed;
    Regroup(Captures(a.log), failed, failed');
    Regroup(Streams(a.log), streams, streams');
  }

  /** What was picked, as an attempt. */
  ghost function Delivered(picked: Step<Option<Served<Captured>>>): Option<Captured> {
    if picked.value.Some? then Some(picked.value.value.value) else None
  }

  /** The attempts up to the first that did not fail empty, which is the picked stream. */
  ghost predicate PickedLast(s: Setting, st: State, cands: seq<Candidate>, wire: Wire, failed: seq<Captured>,
                             streams: seq<Candidate>) {
    var picked, k := Picked(s, st, cands, wire), StreamPassed(s, st, cands, wire);
    && Attempted(st, picked.st, failed, Delivered(picked), streams)
    && InOrder(streams, cands, 3)
    && (picked.value.Some? <==> k < |cands|)
    && (picked.value.Some? ==>
          picked.value.value.cand == cands[k] && streams != [] && streams[|streams| - 1] == cands[k])
  }

  lemma {:induction false} PickedIsFirst(s: Setting, st: State, cands: seq<Candidate>, wire: Wire)
    returns (failed: seq<Captured>, streams: seq<Candidate>)
    requires cands != [] && StreamTry(s, st, cands[0], wire).value.Some?
    ensures PickedLast(s, st, cands, wire, failed, streams)
  {
    failed := StreamTryCaptures(s, st, cands[0], wire);
    var m := StreamTryAdds(s, st, cands[0], wire);
    OrderNone(cands[1..], 3);
    OrderCons(m, [], cands, 3);
    PlusNothing(Repeat(cands[0], m));
    streams := Repeat(cands[0], m);
  }

  lemma {:induction false} PickedAfter(s: Setting, st: State, cands: seq<Candidate>, wire: Wire,
                                       failed: seq<Captured>, streams: seq<Candidate>)
    returns (failed': seq<Captured>, streams': seq<Candidate>)
    requires cands != [] && StreamTry(s, st, cands[0], wire).value.None?
    requires PickedLast(s, StreamTry(s, st, cands[0], wire).st, cands[1..], wire, failed, streams)
    ensures PickedLast(s, st, cands, wire, failed', streams')
  {
    var tried := StreamTry(s, st, cands[0], wire);
    var mine := StreamTryCaptures(s, st, cands[0], wire);
    var m := StreamTryAdds(s, st, cands[0], wire);
    var picked := Picked(s, tried.st, cands[1..], wire);
    PlusNothing(Captures(st.log) + mine);
    AttemptedBoth(st, tried.st, picked.st, mine, Repeat(cands[0], m), failed, Delivered(picked), streams);
    OrderCons(m, streams, cands, 3);
    failed', streams' := mine + failed, Repeat(cands[0], m) + streams;
  }

  lemma {:induction false} PickedIsLast(s: Setting, st: State, cands: seq<Candidate>, wire: Wire)
    returns (failed: seq<Captured>, streams: seq<Candidate>)
    ensures PickedLast(s, st, cands, wire, failed, streams)
    decreases |cands|
  {
    failed, streams := [], [];
    if cands == [] {
      PlusNothing(Captures(st.log));
      PlusNothing(Streams(st.log));
    } else if StreamTry(s, st, cands[0], wire).value.Some? {
      failed, streams := PickedIsFirst(s, st, cands, wire);
    } else {
      failed, streams := PickedIsLast(s, StreamTry(s, st, cands[0], wire).st, cands[1..], wire);
      failed, streams := PickedAfter(s, st, cands, wire, failed, streams);
    }
  }

  /** Serving starts no stream and records no outcome; it may call the candidate for up to five continuations. */
  lemma {:induction false} ServeAdds(s: Setting, st: State, cand: Candidate, capture: Captured) returns (n: nat)
    ensures var served := Serve(s, st, cand, capture);
            && Captures(served.st.log) == Captures(st.log)
            && n <= 5 && (!Bursts(s, capture) ==> n == 0)
            && (served.value.Burst? && s.AllOwned(served.value.resp.toolCalls) ==> n == 5)
            && Adds(st, served.st, cand, n, 0, false, false)
            && (if Bursts(s, capture) then !served.value.Replay? else served.value == Replay(capture.deltas))
  {
    n := 0;
    var resp := Collapse(capture.deltas);
    if !capture.Clean() {
      AddsNothing(st, st, cand);
    } else if !s.AllOwned(resp.toolCalls) {
      RememberingAdds(st, cand, resp);
      RememberingCaptures(st, resp);
    } else {
      n := EnteredLoopAdds(s, st, cand, resp, MAX_TOOL_ROUNDS);
      RememberingCaptures(st, resp);
      ToolLoopCaptures(s, st.Remembering(resp), cand, resp, MAX_TOOL_ROUNDS);
    }
  }

  /**
   * Streaming failover never mixes attempts. Of all upstream streams of the request only the last, `delivered`,
   * delivered anything, and its candidate is the one served; nothing is served exactly when there is none. What the
   * client gets is made of `delivered` alone, from the state `ready` it left behind: exactly its chunks, or, just when
   * it ended cleanly in calls that are all the server's, the outcome of the tool loop on the response it collapses to.
   */
  lemma {:induction false} StreamsNeverMix(s: Setting, st: State, cands: seq<Candidate>, wire: Wire)
    returns (failed: seq<Captured>, delivered: Option<Captured>, streams: seq<Candidate>, ready: State)
    ensures Attempted(st, ready, failed, delivered, streams)
    ensures Attempted(st, Stream(s, st, cands, wire).st, failed, delivered, streams)
    ensures InOrder(streams, cands, 3)
    ensures var run, k := Stream(s, st, cands, wire), StreamPassed(s, st, cands, wire);
            && (run.value.Some? <==> delivered.Some?) && (run.value.Some? <==> k < |cands|)
            && (run.value.None? ==> run.st == ready)
            && (run.value.Some? ==>
                  var cand, output := run.value.value.cand, run.value.value.value;
                  && cand == cands[k] && streams != [] && streams[|streams| - 1] == cand
                  && Serve(s, ready, cand, delivered.value) == Step(run.st, output)
                  && (if Bursts(s, delivered.value) then !output.Replay? else output == Replay(delivered.value.deltas)))
  {
    var picked := Picked(s, st, cands, wire);
    failed, streams := PickedIsLast(s, st, cands, wire);
    delivered, ready := Delivered(picked), picked.st;
    StreamIsPicked(s, st, cands, wire);
    if picked.value.Some? {
      var n := ServeAdds(s, ready, picked.value.value.cand, picked.value.value.value);
    }
  }

  // ---- who is cooled, and who is credited -----------------------------------------------------

  /** The candidates cooled by the run, in order: those tried that meet `StreamCoolsDown` when their turn comes. */
  ghost function StreamCooledBy(s: Setting, st: State, cands: seq<Candidate>, wire: Wire): seq<Candidate>
    decreases |cands|
  {
    if cands == [] then []
    else
      var tried := StreamTry(s, st, cands[0], wire);
      (if StreamCoolsDown(s, st, cands[0], wire) then [cands[0]] else [])
      + if tried.value.Some? then [] else StreamCooledBy(s, tried.st, cands[1..], wire)
  }

  /** Those among the candidates passed over. */
  ghost function PassedCools(s: Setting, st: State, cands: seq<Candidate>, wire: Wire): seq<Candidate>
    decreases |cands|
  {
    if cands == [] then []
    else
      var tried := StreamTry(s, st, cands[0], wire);
      if tried.value.Some? then []
      else
        (if StreamCoolsDown(s, st, cands[0], wire) then [cands[0]] else [])
        + PassedCools(s, tried.st, cands[1..], wire)
  }

  /** The candidate credited by the run: the one that delivered, unless its stream ended in an error chunk. */
  ghost function StreamCreditedBy(s: Setting, st: State, cands: seq<Candidate>, wire: Wire): seq<Candidate> {
    var picked := Picked(s, st, cands, wire);
    if picked.value.Some? && !picked.value.value.value.EndedInError() then [picked.value.value.cand] else []
  }

  /** The run is served by its first candidate. */
  lemma {:induction false} PickedHere(s: Setting, st: State, cands: seq<Candidate>, wire: Wire, m: nat)
    requires cands != []
    requires var tried := StreamTry(s, st, cands[0], wire);
             && tried.value.Some?
             && Adds(st, tried.st, cands[0], 0, m, StreamCoolsDown(s, st, cands[0], wire),
                     StreamCredits(s, st, cands[0], wire))
    ensures Went(st, Picked(s, st, cands, wire).st, [], StreamCooledBy(s, st, cands, wire),
                 StreamCreditedBy(s, st, cands, wire))
  {
    PlusNothing(if StreamCoolsDown(s, st, cands[0], wire) then [cands[0]] else []);
    ServedCools(s, st, cands[0], wire);
  }

  /** The run passes its first candidate over. */
  lemma {:induction false} PickedLater(s: Setting, st: State, cands: seq<Candidate>, wire: Wire, m: nat)
    requires cands != []
    requires var tried := StreamTry(s, st, cands[0], wire);
             && tried.value.None?
             && Adds(st, tried.st, cands[0], 0, m, StreamCoolsDown(s, st, cands[0], wire), false)
             && Went(tried.st, Picked(s, tried.st, cands[1..], wire).st, [],
                     StreamCooledBy(s, tried.st, cands[1..], wire), StreamCreditedBy(s, tried.st, cands[1..], wire))
    ensures Went(st, Picked(s, st, cands, wire).st, [], StreamCooledBy(s, st, cands, wire),
                 StreamCreditedBy(s, st, cands, wire))
  {
    var tried := StreamTry(s, st, cands[0], wire);
    var mine := if StreamCoolsDown(s, st, cands[0], wire) then [cands[0]] else [];
    var rest := Picked(s, tried.st, cands[1..], wire);
    WentBoth(st, tried.st, rest.st, [], mine, [], [],
             StreamCooledBy(s, tried.st, cands[1..], wire), StreamCreditedBy(s, tried.st, cands[1..], wire));
    assert [] + StreamCreditedBy(s, tried.st, cands[1..], wire) == StreamCreditedBy(s, st, cands, wire);
  }

  lemma {:induction false} PickedRecords(s: Setting, st: State, cands: seq<Candidate>, wire: Wire)
    ensures Went(st, Picked(s, st, cands, wire).st, [], StreamCooledBy(s, st, cands, wire),
                 StreamCreditedBy(s, st, cands, wire))
    decreases |cands|
  {
    if cands == [] {
    } else {
      var m := StreamTryAdds(s, st, cands[0], wire);
      var tried := StreamTry(s, st, cands[0], wire);
      if tried.value.Some? {
        PickedHere(s, st, cands, wire, m);
      } else {
        PickedRecords(s, tried.st, cands[1..], wire);
        PickedLater(s, st, cands, wire, m);
      }
    }
  }

  /**
   * The streaming run. The cooled candidates are exactly `StreamCooledBy` and the credited one `StreamCreditedBy`;
   * the only completion calls are up to five continuations of the candidate that delivered, on the burst path.
   */
  lemma {:induction false} StreamRun(s: Setting, st: State, cands: seq<Candidate>, wire: Wire) returns (n: nat)
    ensures var run, picked := Stream(s, st, cands, wire), Picked(s, st, cands, wire);
            && n <= 5
            && (n > 0 ==> picked.value.Some? && Bursts(s, picked.value.value.value))
            && Went(st, run.st, if picked.value.Some? then Repeat(picked.value.value.cand, n) else [],
                    StreamCooledBy(s, st, cands, wire), StreamCreditedBy(s, st, cands, wire))
  {
    n := 0;
    var picked := Picked(s, st, cands, wire);
    PickedRecords(s, st, cands, wire);
    StreamIsPicked(s, st, cands, wire);
    if picked.value.Some? {
      var cand, capture := picked.value.value.cand, picked.value.value.value;
      n := ServeAdds(s, picked.st, cand, capture);
      WentBoth(st, picked.st, Serve(s, picked.st, cand, capture).st, [], StreamCooledBy(s, st, cands, wire),
               StreamCreditedBy(s, st, cands, wire), Repeat(cand, n), [], []);
      assert [] + Repeat(cand, n) == Repeat(cand, n);
      PlusNothing(StreamCooledBy(s, st, cands, wire));
      PlusNothing(StreamCreditedBy(s, st, cands, wire));
    }
  }

  /**
   * What becomes of the candidate that delivered is settled by its stream alone: it is cooled exactly on the Anthropic
   * wire and when the stream ended in an error chunk, and credited exactly when it did not. Neither an error returned
   * after content nor a tool loop that fails afterwards matters.
   */
  lemma {:induction false} DeliveredIsJudged(s: Setting, st: State, cands: seq<Candidate>, wire: Wire)
    requires Picked(s, st, cands, wire).value.Some?
    ensures var served := Picked(s, st, cands, wire).value.value;
            StreamCooledBy(s, st, cands, wire) ==
            PassedCools(s, st, cands, wire)
            + if wire.Anthropic? && served.value.EndedInError() then [served.cand] else []
    decreases |cands|
  {
    var tried := StreamTry(s, st, cands[0], wire);
    if tried.value.Some? {
      ServedCools(s, st, cands[0], wire);
    } else {
      DeliveredIsJudged(s, tried.st, cands[1..], wire);
      var served := Picked(s, st, cands, wire).value.value;
      Regroup(if StreamCoolsDown(s, st, cands[0], wire) then [cands[0]] else [],
              PassedCools(s, tried.st, cands[1..], wire),
              if wire.Anthropic? && served.value.EndedInError() then [served.cand] else []);
    }
  }

  // ---- failures that are credited -------------------------------------------------------------

  /** One provider that answers streams with `capture` and completions with an error. */
  function Streaming(provider: string, tools: set<string>, capture: Captured): Setting {
    Setting({provider}, tools, {}, (log, cand, req) => Err(Transport), (log, cand, req) => capture,
            (log, call) => "", error => "")
  }

  lemma {:induction false} OneCandidate(s: Setting, st: State, cand: Candidate, wire: Wire, capture: Captured)
    requires cand.provider in s.providers && st.log == []
    requires Attempt(s, st, cand).value == capture && !capture.Empty() && !capture.EndedInError()
    ensures var run := Stream(s, st, [cand], wire);
            && Picked(s, st, [cand], wire).value == Some(Served(cand, capture))
            && Cools(run.st.log) == [] && Credits(run.st.log) == [cand]
  {
    var n := StreamRun(s, st, [cand], wire);
    ServedCools(s, st, cand, wire);
    assert [] + [cand] == [cand];
  }

  /** A stream that breaks off with an error after some text is credited, on either wire. */
  lemma {:induction false} BrokenStreamIsCredited(cand: Candidate, wire: Wire)
    ensures var capture := Captured([TextDelta("a")], Some(Transport));
            var run := Stream(Streaming(cand.provider, {}, capture), State([], [], true), [cand], wire);
            && run.value == Some(Served(cand, Replay(capture.deltas)))
            && Cools(run.st.log) == [] && Credits(run.st.log) == [cand]
  {
    var capture := Captured([TextDelta("a")], Some(Transport));
    var s, st := Streaming(cand.provider, {}, capture), State([], [], true);
    OneCandidate(s, st, cand, wire, capture);
    StreamIsPicked(s, st, [cand], wire);
  }

  /** So is, whatever the setting, a clean stream of server calls whose first continuation fails. */
  lemma {:induction false} FailedLoopIsCredited(s: Setting, st: State, cand: Candidate, wire: Wire, capture: Captured,
                                                error: Failure)
    requires cand.provider in s.providers && st.log == []
    requires Attempt(s, st, cand).value == capture && Bursts(s, capture)
    requires forall log, req :: s.complete(log, cand, req) == Err(error)
    ensures var run := Stream(s, st, [cand], wire);
            && run.value == Some(Served(cand, ToolsFailed(error)))
            && Cools(run.st.log) == [] && Credits(run.st.log) == [cand]
  {
    OneCandidate(s, st, cand, wire, capture);
    StreamIsPicked(s, st, [cand], wire);
    var resp := Collapse(capture.deltas);
    LoopStops(s, Picked(s, st, [cand], wire).st.Remembering(resp), cand, resp, MAX_TOOL_ROUNDS, error);
  }

  lemma {:induction false} FailedToolsAreCredited(cand: Candidate, wire: Wire)
    ensures var capture := Captured([StreamDelta("", "tool_calls", None, [ToolCall("1", "t", "{}")], "")], None);
            var run := Stream(Streaming(cand.provider, {"t"}, capture), State([], [], true), [cand], wire);
            && run.value == Some(Served(cand, ToolsFailed(Transport)))
            && Cools(run.st.log) == [] && Credits(run.st.log) == [cand]
  {
    var d := StreamDelta("", "tool_calls", None, [ToolCall("1", "t", "{}")], "");
    CollapseFinished([d]);
    FailedLoopIsCredited(Streaming(cand.provider, {"t"}, Captured([d], None)), State([], [], true), cand, wire,
                         Captured([d], None), Transport);
  }
}
