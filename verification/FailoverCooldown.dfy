/** A request's run and the selector together: what the next call sees after a failover. */
module FailoverCooldown {
  import opened Collections
  import opened Routing
  import opened RoutingRuns
  import O = Orchestration
  import Runs = OrchestrationRuns
  import Streams = StreamRuns

  /** The selector calls of a log, each at the instant it is made. */
  function SelectorOps(log: seq<O.Event>, times: seq<int>): seq<Op>
    requires |times| == |log|
  {
    if log == [] then []
    else
      var n := |log| - 1;
      SelectorOps(log[..n], times[..n])
      + match log[n]
        case Cooled(c) => [Failure(c, times[n])]
        case Credited(c) => [Success(c)]
        case _ => []
  }

  /** The operation reports the outcome an event records, at the instant `t`. */
  ghost predicate Reports(op: Op, e: O.Event, t: int) {
    (e.Cooled? && op == Failure(e.cand, t)) || (e.Credited? && op == Success(e.cand))
  }

  /** The selector is told of each cooled and each credited candidate, and of nothing else, in order and in time. */
  lemma {:induction false} OpsAre(log: seq<O.Event>, times: seq<int>) returns (at: seq<nat>)
    requires |times| == |log|
    ensures Ascends(at)
    ensures forall k: nat :: k in at <==> k < |log| && (log[k].Cooled? || log[k].Credited?)
    ensures |SelectorOps(log, times)| == |at|
    ensures forall i :: 0 <= i < |at| ==>
              at[i] < |log| && Reports(SelectorOps(log, times)[i], log[at[i]], times[at[i]])
  {
    if log == [] {
      at := [];
    } else {
      var n := |log| - 1;
      at := OpsAre(log[..n], times[..n]);
      if log[n].Cooled? || log[n].Credited? {
        AscendsNext(at, n);
        at := at + [n];
      }
    }
  }

  lemma {:induction false} LastFailureNext(ops: seq<Op>, op: Op, c: Candidate)
    ensures LastFailure(ops + [op], c) == if op.Failure? && op.c == c then |ops| else LastFailure(ops, c)
  {
    assert (ops + [op])[..|ops|] == ops;
  }

  lemma {:induction false} FailuresAreCools(log: seq<O.Event>, times: seq<int>, c: Candidate)
    requires |times| == |log|
    ensures c in Runs.Cools(log) <==> LastFailure(SelectorOps(log, times), c) >= 0
  {
    if log == [] {
    } else {
      var n := |log| - 1;
      var before, cools := SelectorOps(log[..n], times[..n]), Runs.Cools(log[..n]);
      FailuresAreCools(log[..n], times[..n], c);
      match log[n] {
        case Cooled(d) =>
          LastFailureNext(before, Failure(d, times[n]), c);
          assert c in cools + [d] <==> c in cools || c == d;
        case Credited(d) =>
          LastFailureNext(before, Success(d), c);
          assert cools + [] == cools;
        case _ =>
          assert before + [] == before && cools + [] == cools;
      }
    }
  }

  lemma {:induction false} SeenIsRecovered(config: Config, ops: seq<Op>, c: Candidate, now: int)
    requires InRange(config, INITIAL) && Monotone(ops)
    requires c in Snapshot(config, Run(config, INITIAL, ops), now)
    ensures c in config.candidates && Recovered(config, ops, c, now)
  {
    var st := Run(config, INITIAL, ops);
    EligibleIsRecovered(config, ops, c, now);
    AvailableCounts(Rotated(config.candidates, st.cursor), st, now, c);
    RotatedSameElements(config.candidates, st.cursor);
    assert c in multiset(Snapshot(config, st, now));
    assert c in multiset(config.candidates);
  }

  lemma {:induction false} RecoveredIsSeen(config: Config, ops: seq<Op>, c: Candidate, now: int)
    requires InRange(config, INITIAL) && Monotone(ops) && c in config.candidates
    ensures c in Snapshot(config, Run(config, INITIAL, ops), now) <==> Recovered(config, ops, c, now)
  {
    var st := Run(config, INITIAL, ops);
    EligibleIsRecovered(config, ops, c, now);
    AvailableCounts(Rotated(config.candidates, st.cursor), st, now, c);
    RotatedSameElements(config.candidates, st.cursor);
    assert c in multiset(config.candidates);
    assert c in multiset(Snapshot(config, st, now)) <==> c in Snapshot(config, st, now);
  }

  /** Where the operations of a run stand: the past, the beginning, and the request's own. */
  lemma {:induction false} Positions(past: seq<Op>, b: Op, mine: seq<Op>)
    ensures var ops := past + [b] + mine;
            && (forall i :: 0 <= i < |past| ==> ops[i] == past[i])
            && ops[|past|] == b
            && (forall i :: 0 <= i < |mine| ==> ops[|past| + 1 + i] == mine[i])
  {
  }

  lemma {:induction false} InTime(ops: seq<Op>, i: nat, j: nat)
    requires Monotone(ops) && i < j < |ops| && !ops[i].Success? && !ops[j].Success?
    ensures ops[i].now <= ops[j].now
  {
  }

  ghost predicate Since(ops: seq<Op>, began: int) {
    forall i :: 0 <= i < |ops| && ops[i].Failure? ==> began <= ops[i].now
  }

  lemma {:induction false} RunIsSince(past: seq<Op>, began: int, mine: seq<Op>, now: int)
    requires Monotone(past + [Begin(began)] + mine + [Begin(now)])
    ensures Since(mine, began) && began <= now
  {
    var ops := past + [Begin(began)] + mine;
    var all := ops + [Begin(now)];
    assert all[|past|] == Begin(began) && all[|ops|] == Begin(now);
    InTime(all, |past|, |ops|);
    forall i | 0 <= i < |mine| && mine[i].Failure?
      ensures began <= mine[i].now
    {
      assert all[|past| + 1 + i] == mine[i];
      InTime(all, |past|, |past| + 1 + i);
    }
  }

  /** Of a candidate recovered when the request began, only its own failures can matter before one cooldown. */
  lemma {:induction false} Later(config: Config, past: seq<Op>, began: int, mine: seq<Op>, now: int, c: Candidate)
    requires Since(mine, began) && began <= now < began + config.cooldown && Recovered(config, past, c, began)
    ensures Recovered(config, past + [Begin(began)] + mine, c, now) <==> LastFailure(mine, c) < 0
  {
    var n, ops, k := |past|, past + [Begin(began)] + mine, LastFailure(mine, c);
    Positions(past, Begin(began), mine);
    if k >= 0 {
      assert FailedAt(ops, n + 1 + k, c);
    } else {
      forall i: nat | FailedAt(ops, i, c)
        ensures ops[i].now + config.cooldown <= now
      {
        assert i < n ==> FailedAt(past, i, c);
        assert i > n ==> FailedAt(mine, i - n - 1, c);
      }
    }
  }

  // ---- the next call --------------------------------------------------------------------------

  /**
   * Until one cooldown after a request began, the next call sees, of the candidates that request saw, exactly those its
   * log does not cool.
   */
  lemma {:induction false} NextCallSkipsCools(config: Config, past: seq<Op>, began: int, log: seq<O.Event>,
                                              times: seq<int>, now: int, c: Candidate)
    requires InRange(config, INITIAL) && |times| == |log|
    requires Monotone(past + [Begin(began)] + SelectorOps(log, times) + [Begin(now)])
    requires now < began + config.cooldown
    requires c in Snapshot(config, Run(config, INITIAL, past), began)
    ensures var ops := past + [Begin(began)] + SelectorOps(log, times);
            c in Snapshot(config, Run(config, INITIAL, ops), now) <==> c !in Runs.Cools(log)
  {
    var mine := SelectorOps(log, times);
    var ops := past + [Begin(began)] + mine;
    FailuresAreCools(log, times, c);
    assert Monotone(ops) && Monotone(past) by {
      assert forall i :: 0 <= i < |ops| ==> (ops + [Begin(now)])[i] == ops[i];
      assert forall i :: 0 <= i < |past| ==> ops[i] == past[i];
    }
    SeenIsRecovered(config, past, c, began);
    RunIsSince(past, began, mine, now);
    Later(config, past, began, mine, now, c);
    RecoveredIsSeen(config, ops, c, now);
  }

  /** After a completion, they are those not in `CooledBy`. */
  lemma {:induction false} NextCallSkipsCooled(config: Config, past: seq<Op>, began: int, s: O.Setting, st: O.State,
                                               wire: O.Wire, times: seq<int>, now: int, c: Candidate)
    requires InRange(config, INITIAL) && st.log == []
    requires var seen := Snapshot(config, Run(config, INITIAL, past), began);
             var log := O.Complete(s, st, seen, wire).st.log;
             && c in seen && |times| == |log| && now < began + config.cooldown
             && Monotone(past + [Begin(began)] + SelectorOps(log, times) + [Begin(now)])
    ensures var seen := Snapshot(config, Run(config, INITIAL, past), began);
            var ops := past + [Begin(began)] + SelectorOps(O.Complete(s, st, seen, wire).st.log, times);
            c in Snapshot(config, Run(config, INITIAL, ops), now) <==> c !in Runs.CooledBy(s, st, seen, wire)
  {
    var seen := Snapshot(config, Run(config, INITIAL, past), began);
    var log := O.Complete(s, st, seen, wire).st.log;
    var calls := Runs.FailoverRun(s, st, seen, wire);
    assert Runs.Cools(log) == [] + Runs.CooledBy(s, st, seen, wire);
    NextCallSkipsCools(config, past, began, log, times, now, c);
  }

  /** After a stream, those not in `StreamCooledBy`. */
  lemma {:induction false} NextCallSkipsStreamCooled(config: Config, past: seq<Op>, began: int, s: O.Setting,
                                                     st: O.State, wire: O.Wire, times: seq<int>, now: int,
                                                     c: Candidate)
    requires InRange(config, INITIAL) && st.log == []
    requires var seen := Snapshot(config, Run(config, INITIAL, past), began);
             var log := O.Stream(s, st, seen, wire).st.log;
             && c in seen && |times| == |log| && now < began + config.cooldown
             && Monotone(past + [Begin(began)] + SelectorOps(log, times) + [Begin(now)])
    ensures var seen := Snapshot(config, Run(config, INITIAL, past), began);
            var ops := past + [Begin(began)] + SelectorOps(O.Stream(s, st, seen, wire).st.log, times);
            c in Snapshot(config, Run(config, INITIAL, ops), now) <==> c !in Streams.StreamCooledBy(s, st, seen, wire)
  {
    var seen := Snapshot(config, Run(config, INITIAL, past), began);
    var log := O.Stream(s, st, seen, wire).st.log;
    var n := Streams.StreamRun(s, st, seen, wire);
    assert Runs.Cools(log) == [] + Streams.StreamCooledBy(s, st, seen, wire);
    NextCallSkipsCools(config, past, began, log, times, now, c);
  }

  // ---- among other requests -------------------------------------------------------------------

  lemma {:induction false} FailureTimes(log: seq<O.Event>, times: seq<int>, op: Op)
    requires |times| == |log| && op in SelectorOps(log, times) && op.Failure?
    ensures op.now in times
  {
    var n := |log| - 1;
    assert times[n] in times;
    if op in SelectorOps(log[..n], times[..n]) {
      FailureTimes(log[..n], times[..n], op);
      assert forall t :: t in times[..n] ==> t in times;
    }
  }

  /**
   * Whatever other requests do in between, before, or after: a candidate a request cooled is seen by no call until one
   * cooldown after that request began. `ops` is any run of the selector that has the request's own operations in it.
   */
  lemma {:induction false} CooledStaysOut(config: Config, ops: seq<Op>, log: seq<O.Event>, times: seq<int>, began: int,
                                          now: int, c: Candidate)
    requires InRange(config, INITIAL) && Monotone(ops) && |times| == |log|
    requires forall t :: t in times ==> began <= t
    requires forall op :: op in SelectorOps(log, times) ==> op in ops
    requires c in Runs.Cools(log) && now < began + config.cooldown
    ensures c !in Snapshot(config, Run(config, INITIAL, ops), now)
  {
    var mine := SelectorOps(log, times);
    var k := LastFailure(mine, c);
    FailuresAreCools(log, times, c);
    FailureTimes(log, times, mine[k]);
    assert mine[k] in ops;
    var i :| 0 <= i < |ops| && ops[i] == mine[k];
    assert FailedAt(ops, i, c) && !Recovered(config, ops, c, now);
    if c in Snapshot(config, Run(config, INITIAL, ops), now) {
      SeenIsRecovered(config, ops, c, now);
    }
  }
}
