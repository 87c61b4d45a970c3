/** Whole runs of one selector: every interleaving of the requests that share it is a sequence of `Op`s. */
module RoutingRuns {
  import opened Collections
  import opened Routing

  ghost function Run(config: Config, st: State, ops: seq<Op>): (r: State)
    requires InRange(config, st)
    ensures InRange(config, r)
  {
    if ops == [] then st else Apply(config, Run(config, st, ops[..|ops| - 1]), ops[|ops| - 1])
  }

  /** The clock, read under the lock, never runs backwards. `Success` does not read it. */
  ghost predicate Monotone(ops: seq<Op>) {
    forall i, j :: 0 <= i < j < |ops| && !ops[i].Success? && !ops[j].Success? ==> ops[i].now <= ops[j].now
  }

  ghost predicate FailedAt(ops: seq<Op>, i: nat, c: Candidate) {
    i < |ops| && ops[i].Failure? && ops[i].c == c
  }

  /** Every failure of `c` is at least one cooldown old at `now`. */
  ghost predicate Recovered(config: Config, ops: seq<Op>, c: Candidate, now: int) {
    forall i: nat :: FailedAt(ops, i, c) ==> ops[i].now + config.cooldown <= now
  }

  // ---- cooldown -------------------------------------------------------------------------------

  /** The index of the last failure of `c`, or -1. */
  ghost function LastFailure(ops: seq<Op>, c: Candidate): (k: int)
    ensures -1 <= k < |ops|
    ensures k >= 0 ==> FailedAt(ops, k, c)
    ensures forall i: nat :: FailedAt(ops, i, c) ==> i <= k
  {
    if ops == [] then -1
    else
      var n := |ops| - 1;
      if FailedAt(ops, n, c) then n
      else
        assert forall i: nat :: FailedAt(ops, i, c) ==> FailedAt(ops[..n], i, c);
        LastFailure(ops[..n], c)
  }

  /** An expiry is exactly the latest failure plus the cooldown. */
  lemma {:induction false} ExpiryIsLatestFailure(config: Config, ops: seq<Op>, c: Candidate)
    requires InRange(config, INITIAL)
    ensures var m := Run(config, INITIAL, ops).cooldowns;
            var k := LastFailure(ops, c);
            && (c in m <==> k >= 0)
            && (k >= 0 ==> m[c] == ops[k].now + config.cooldown)
  {
    if ops == [] {
    } else {
      ExpiryIsLatestFailure(config, ops[..|ops| - 1], c);
    }
  }

  /** With a clock that does not run backwards, eligible means: no failure less than a cooldown ago. */
  lemma {:induction false} EligibleIsRecovered(config: Config, ops: seq<Op>, c: Candidate, now: int)
    requires InRange(config, INITIAL) && Monotone(ops)
    ensures Eligible(Run(config, INITIAL, ops), c, now) <==> Recovered(config, ops, c, now)
  {
    ExpiryIsLatestFailure(config, ops, c);
  }

  lemma {:induction false} AvailableCounts(cands: seq<Candidate>, st: State, now: int, c: Candidate)
    ensures multiset(Available(cands, st, now))[c] == if Eligible(st, c, now) then multiset(cands)[c] else 0
  {
    if cands == [] {
    } else {
      AvailableCounts(cands[1..], st, now, c);
      assert cands == [cands[0]] + cands[1..];
    }
  }

  lemma {:induction false} RotatedSameElements<T>(s: seq<T>, k: nat)
    requires k <= |s|
    ensures multiset(Rotated(s, k)) == multiset(s)
  {
    assert s == s[..k] + s[k..];
  }

  /**
   * In any interleaved run from a fresh selector, a call sees a candidate once per configured position if all its
   * failures are a full cooldown old, and not at all otherwise.
   */
  lemma {:induction false} CooldownIsExact(config: Config, ops: seq<Op>, j: nat, c: Candidate)
    requires InRange(config, INITIAL) && Monotone(ops)
    requires j < |ops| && ops[j].Begin?
    ensures var seen := Snapshot(config, Run(config, INITIAL, ops[..j]), ops[j].now);
            multiset(seen)[c] ==
            if Recovered(config, ops[..j], c, ops[j].now) then multiset(config.candidates)[c] else 0
  {
    var st := Run(config, INITIAL, ops[..j]);
    assert Monotone(ops[..j]);
    EligibleIsRecovered(config, ops[..j], c, ops[j].now);
    AvailableCounts(Rotated(config.candidates, st.cursor), st, ops[j].now, c);
    RotatedSameElements(config.candidates, st.cursor);
  }

  /** No operation, `Success` included, ever removes or shortens a cooldown. */
  lemma {:induction false} ExpiriesNeverMoveBack(config: Config, ops: seq<Op>, i: nat, c: Candidate)
    requires InRange(config, INITIAL) && Monotone(ops) && i <= |ops|
    ensures var early := Run(config, INITIAL, ops[..i]).cooldowns;
            var late := Run(config, INITIAL, ops).cooldowns;
            c in early ==> c in late && early[c] <= late[c]
  {
    ExpiryIsLatestFailure(config, ops, c);
    ExpiryIsLatestFailure(config, ops[..i], c);
    var k := LastFailure(ops[..i], c);
    if k >= 0 {
      assert FailedAt(ops, k, c);
    }
  }

  /** Under failover the cursor never leaves 0, so a call sees configuration order. */
  lemma {:induction false} FailoverKeepsConfigOrder(config: Config, ops: seq<Op>, now: int)
    requires InRange(config, INITIAL) && !config.RoundRobin()
    ensures var st := Run(config, INITIAL, ops);
            st.cursor == 0 && Snapshot(config, st, now) == Available(config.candidates, st, now)
  {
    if ops == [] {
    } else {
      FailoverKeepsConfigOrder(config, ops[..|ops| - 1], now);
    }
    assert Rotated(config.candidates, 0) == config.candidates;
  }

  // ---- where a call begins --------------------------------------------------------------------

  /** `c` is configured first at `k`. */
  ghost predicate FirstAt(cands: seq<Candidate>, k: nat, c: Candidate) {
    k < |cands| && cands[k] == c && forall i :: 0 <= i < k ==> cands[i] != c
  }

  /**
   * Under round robin, after an outcome of a configured candidate is reported, failure or success, the next call sees
   * what follows the candidate's first place first, and wraps around. A stranger moves nothing.
   */
  lemma {:induction false} OutcomeMovesPast(config: Config, st: State, c: Candidate, now: int, later: int)
    requires InRange(config, st) && config.strategy == "round_robin"
    ensures forall op :: op == Failure(c, now) || op == Success(c) ==>
              var next, cands := Apply(config, st, op), config.candidates;
              && (c !in cands ==> next.cursor == st.cursor)
              && forall k: nat :: FirstAt(cands, k, c) ==>
                   Snapshot(config, next, later) == Available(cands[k + 1..] + cands[..k + 1], next, later)
  {
    var cands := config.candidates;
    var k := Position(cands, c);
    if k < |cands| {
      assert forall i: nat :: FirstAt(cands, i, c) ==> i == k;
      assert k + 1 == |cands| ==> cands[k + 1..] + cands[..k + 1] == Rotated(cands, 0);
    }
  }

  // ---- round-robin fairness -------------------------------------------------------------------

  /** One request: it begins at `now` and, when `succeeded`, reports success of the first candidate it saw. */
  datatype Round = Round(now: int, succeeded: bool)

  ghost function AfterRound(config: Config, st: State, round: Round): (r: State)
    requires InRange(config, st)
    ensures InRange(config, r)
  {
    var seen := Snapshot(config, st, round.now);
    var begun := Apply(config, st, Begin(round.now));
    if round.succeeded && seen != [] then Apply(config, begun, Success(seen[0])) else begun
  }

  ghost function Firsts(config: Config, st: State, rounds: seq<Round>): seq<Candidate>
    requires InRange(config, st)
    decreases |rounds|
  {
    if rounds == [] then []
    else
      var seen := Snapshot(config, st, rounds[0].now);
      (if seen == [] then [] else [seen[0]]) + Firsts(config, AfterRound(config, st, rounds[0]), rounds[1..])
  }

  /** Throughout the rounds exactly the members of `live` are eligible. */
  ghost predicate Steady(config: Config, st: State, rounds: seq<Round>, live: set<Candidate>) {
    forall k, c :: 0 <= k < |rounds| && c in config.candidates ==>
      (Eligible(st, c, rounds[k].now) <==> c in live)
  }

  lemma {:induction false} AvailableSplits(a: seq<Candidate>, b: seq<Candidate>, st: State, now: int)
    ensures Available(a + b, st, now) == Available(a, st, now) + Available(b, st, now)
  {
    if a == [] {
      assert a + b == b;
    } else {
      assert (a + b)[1..] == a[1..] + b;
      AvailableSplits(a[1..], b, st, now);
    }
  }

  lemma {:induction false} NoneAvailable(a: seq<Candidate>, st: State, now: int)
    requires forall i :: 0 <= i < |a| ==> !Eligible(st, a[i], now)
    ensures Available(a, st, now) == []
  {
    if a == [] {
    } else {
      NoneAvailable(a[1..], st, now);
    }
  }

  lemma {:induction false} SameAvailable(a: seq<Candidate>, st: State, now: int, st': State, now': int)
    requires forall c :: c in a ==> (Eligible(st, c, now) <==> Eligible(st', c, now'))
    ensures Available(a, st, now) == Available(a, st', now')
  {
    if a == [] {
    } else {
      SameAvailable(a[1..], st, now, st', now');
    }
  }

  lemma {:induction false} RotateFurther<T>(s: seq<T>, k: nat, d: nat)
    requires k < |s| && d < |s|
    ensures Rotated(s, k)[d] == s[Wrap(k + d, |s|)]
    ensures Rotated(s, Wrap(Wrap(k + d, |s|) + 1, |s|)) == Rotated(s, k)[d + 1..] + Rotated(s, k)[..d + 1]
  {
    if k + d + 1 == |s| {
      assert Rotated(s, 0) == s;
    }
  }

  /** Splitting the rotated list at its first eligible candidate. */
  lemma {:induction false} AvailableFromSkipped(all: seq<Candidate>, st: State, now: int)
    ensures var d := Skipped(all, st, now);
            if d == |all| then Available(all, st, now) == []
            else
              && Available(all, st, now) == [all[d]] + Available(all[d + 1..], st, now)
              && Available(all[d + 1..] + all[..d + 1], st, now) == Available(all[d + 1..], st, now) + [all[d]]
  {
    var d := Skipped(all, st, now);
    NoneAvailable(all[..d], st, now);
    AvailableSplits(all[..d], all[d..], st, now);
    assert all == all[..d] + all[d..];
    if d < |all| {
      assert all[d..][1..] == all[d + 1..];
      assert all[..d + 1] == all[..d] + [all[d]];
      AvailableSplits(all[d + 1..], all[..d + 1], st, now);
      AvailableSplits(all[..d], [all[d]], st, now);
    }
  }

  /** The first eligible candidate stands behind `Skipped` ineligible ones. */
  lemma {:induction false} FirstSeen(config: Config, st: State, now: int)
    requires InRange(config, st)
    ensures var seen, all := Snapshot(config, st, now), Rotated(config.candidates, st.cursor);
            var d := Skipped(all, st, now);
            && (seen == [] <==> d == |all|)
            && (seen != [] ==>
                  && seen[0] == config.candidates[Wrap(st.cursor + d, |all|)]
                  && Rotated(seen, 1) == Available(all[d + 1..] + all[..d + 1], st, now))
  {
    var all := Rotated(config.candidates, st.cursor);
    var d := Skipped(all, st, now);
    AvailableFromSkipped(all, st, now);
    if d == |all| {
    } else {
      RotatedAt(config.candidates, st.cursor, d);
    }
  }

  /** `Begin` moves just past the first eligible candidate: what comes next is the same list, turned by one. */
  lemma {:induction false} BeginRotates(config: Config, st: State, now: int)
    requires InRange(config, st) && config.RoundRobin()
    ensures var seen := Snapshot(config, st, now);
            var d := Skipped(Rotated(config.candidates, st.cursor), st, now);
            && (seen == [] <==> d == |config.candidates|)
            && (seen != [] ==>
                  && seen[0] == config.candidates[Wrap(st.cursor + d, |config.candidates|)]
                  && Snapshot(config, Apply(config, st, Begin(now)), now) == Rotated(seen, 1))
  {
    FirstSeen(config, st, now);
    if Snapshot(config, st, now) == [] {
    } else {
      RotateFurther(config.candidates, st.cursor, Skipped(Rotated(config.candidates, st.cursor), st, now));
      BeginTurns(config, st, now);
    }
  }

  lemma {:induction false} BeginTurns(config: Config, st: State, now: int)
    requires InRange(config, st) && config.RoundRobin()
    requires Skipped(Rotated(config.candidates, st.cursor), st, now) < |config.candidates|
    ensures var d, n := Skipped(Rotated(config.candidates, st.cursor), st, now), |config.candidates|;
            Snapshot(config, Apply(config, st, Begin(now)), now) ==
            Available(Rotated(config.candidates, Wrap(Wrap(st.cursor + d, n) + 1, n)), st, now)
  {
    var next := Apply(config, st, Begin(now));
    SameAvailable(Rotated(config.candidates, next.cursor), st, now, next, now);
  }

  lemma {:induction false} PositionOf(cands: seq<Candidate>, i: nat)
    requires i < |cands| && Distinct(cands)
    ensures Position(cands, cands[i]) == i
  {
  }

  lemma {:induction false} PositionIsFirst(cands: seq<Candidate>, i: nat)
    requires i < |cands|
    ensures Position(cands, cands[i]) <= i
  {
  }

  lemma {:induction false} PastIs(config: Config, st: State, i: nat)
    requires InRange(config, st) && config.RoundRobin() && i < |config.candidates|
    ensures Position(config.candidates, config.candidates[i]) < |config.candidates|
    ensures Past(config, st, config.candidates[i]) ==
            Wrap(Position(config.candidates, config.candidates[i]) + 1, |config.candidates|)
  {
    PositionIsFirst(config.candidates, i);
  }

  lemma {:induction false} SamePlace(i: nat, j: nat, n: nat)
    requires i < n && j < n
    ensures Wrap(i + 1, n) == Wrap(j + 1, n) <==> i == j
  {
  }

  /** The place at which the first candidate a call sees is configured. */
  ghost function SeenAt(config: Config, st: State, now: int): (i: nat)
    requires InRange(config, st) && Snapshot(config, st, now) != []
    ensures i < |config.candidates| && config.candidates[i] == Snapshot(config, st, now)[0]
  {
    FirstSeen(config, st, now);
    Wrap(st.cursor + Skipped(Rotated(config.candidates, st.cursor), st, now), |config.candidates|)
  }

  lemma {:induction false} BeginPasses(config: Config, st: State, now: int)
    requires InRange(config, st) && config.RoundRobin() && Snapshot(config, st, now) != []
    ensures Apply(config, st, Begin(now)) == st.(cursor := Wrap(SeenAt(config, st, now) + 1, |config.candidates|))
  {
    FirstSeen(config, st, now);
  }

  /**
   * A success reported for the first candidate changes nothing `Begin` had not already done, exactly if that candidate
   * was seen at the first place it is configured at; otherwise the cursor goes back there.
   */
  lemma {:induction false} SuccessIsIdleIff(config: Config, st: State, round: Round)
    requires InRange(config, st) && config.RoundRobin()
    ensures var seen := Snapshot(config, st, round.now);
            AfterRound(config, st, round) == Apply(config, st, Begin(round.now)) <==>
            !round.succeeded || seen == [] || Position(config.candidates, seen[0]) == SeenAt(config, st, round.now)
  {
    if Snapshot(config, st, round.now) == [] {
    } else {
      var at, begun := SeenAt(config, st, round.now), Apply(config, st, Begin(round.now));
      BeginPasses(config, st, round.now);
      PastIs(config, begun, at);
      SamePlace(Position(config.candidates, config.candidates[at]), at, |config.candidates|);
    }
  }

  /** No candidate is configured twice, or the round reports no success. */
  ghost predicate Idle(config: Config, round: Round) {
    Distinct(config.candidates) || !round.succeeded
  }

  lemma {:induction false} SuccessOfFirstIsIdle(config: Config, st: State, round: Round)
    requires InRange(config, st) && config.RoundRobin() && Idle(config, round)
    ensures AfterRound(config, st, round) == Apply(config, st, Begin(round.now))
  {
    SuccessIsIdleIff(config, st, round);
    if Distinct(config.candidates) && Snapshot(config, st, round.now) != [] {
      PositionOf(config.candidates, SeenAt(config, st, round.now));
    }
  }

  /** The element at `k` of the endless repetition of `cycle`. */
  ghost function Around<T>(cycle: seq<T>, k: nat): T
    requires cycle != []
  {
    if k < |cycle| then cycle[k] else Around(cycle, k - |cycle|)
  }

  /** `f` runs through `cycle` again and again. */
  ghost predicate Periodic<T(!new)>(f: seq<T>, cycle: seq<T>)
    requires cycle != []
  {
    forall k: nat :: k < |f| ==> f[k] == Around(cycle, k)
  }

  lemma {:induction false} AroundRotated<T>(cycle: seq<T>, k: nat)
    requires cycle != []
    ensures Around(Rotated(cycle, 1), k) == Around(cycle, k + 1)
  {
    if k >= |cycle| {
      AroundRotated(cycle, k - |cycle|);
    } else if k + 1 == |cycle| {
      assert Around(cycle, k + 1) == Around(cycle, 0);
    }
  }

  lemma {:induction false} PeriodicCons<T(!new)>(f: seq<T>, cycle: seq<T>)
    requires cycle != [] && Periodic(f, Rotated(cycle, 1))
    ensures Periodic([cycle[0]] + f, cycle)
  {
    forall k: nat | k < |f| + 1
      ensures ([cycle[0]] + f)[k] == Around(cycle, k)
    {
      if k > 0 {
        AroundRotated(cycle, k - 1);
      }
    }
  }

  /** One round turns what the next call sees by one place, and touches no cooldown. */
  lemma {:induction false} RoundRotates(config: Config, st: State, round: Round, now: int)
    requires InRange(config, st) && config.RoundRobin() && Idle(config, round)
    requires Snapshot(config, st, round.now) != []
    requires forall c :: c in config.candidates ==> (Eligible(st, c, round.now) <==> Eligible(st, c, now))
    ensures var next := AfterRound(config, st, round);
            && next.cooldowns == st.cooldowns
            && Snapshot(config, next, now) == Rotated(Snapshot(config, st, round.now), 1)
  {
    SuccessOfFirstIsIdle(config, st, round);
    BeginRotates(config, st, round.now);
    var next := AfterRound(config, st, round);
    var all := Rotated(config.candidates, next.cursor);
    assert forall c :: c in all ==> c in config.candidates;
    SameAvailable(all, next, round.now, next, now);
  }

  /** Calls start from the first eligible candidate, then the second, and so on around and around. */
  lemma {:induction false} FirstsGoRound(config: Config, st: State, rounds: seq<Round>, live: set<Candidate>)
    requires InRange(config, st) && config.RoundRobin() && forall r :: r in rounds ==> Idle(config, r)
    requires rounds != [] && Steady(config, st, rounds, live)
    requires Snapshot(config, st, rounds[0].now) != []
    ensures |Firsts(config, st, rounds)| == |rounds|
    ensures Periodic(Firsts(config, st, rounds), Snapshot(config, st, rounds[0].now))
    decreases |rounds|
  {
    var seen := Snapshot(config, st, rounds[0].now);
    var next := AfterRound(config, st, rounds[0]);
    var rest := rounds[1..];
    if rest == [] {
      assert Firsts(config, next, rest) == [];
    } else {
      RoundRotates(config, st, rounds[0], rest[0].now);
      assert Steady(config, next, rest, live) by {
        forall k, c | 0 <= k < |rest| && c in config.candidates
          ensures Eligible(next, c, rest[k].now) <==> c in live
        {
          assert rest[k] == rounds[k + 1];
        }
      }
      FirstsGoRound(config, next, rest, live);
      PeriodicCons(Firsts(config, next, rest), seen);
    }
  }

  lemma {:induction false} PeriodicCount<T(!new)>(f: seq<T>, cycle: seq<T>, m: nat, c: T)
    requires cycle != [] && |f| == m * |cycle| && Periodic(f, cycle)
    ensures multiset(f)[c] == m * multiset(cycle)[c]
  {
    if m == 0 {
    } else {
      var e := |cycle|;
      var rest := f[e..];
      assert |f| == e + (m - 1) * e && |rest| == (m - 1) * e;
      assert f[..e] == cycle;
      forall k: nat | k < |rest|
        ensures rest[k] == Around(cycle, k)
      {
        assert rest[k] == f[k + e] == Around(cycle, k + e);
      }
      PeriodicCount(rest, cycle, m - 1, c);
      assert f == cycle + rest;
      assert multiset(f)[c] == multiset(cycle)[c] + multiset(rest)[c];
      assert m * multiset(cycle)[c] == multiset(cycle)[c] + (m - 1) * multiset(cycle)[c];
    }
  }

  lemma {:induction false} CountOnce<T(!new)>(s: seq<T>, c: T)
    requires Distinct(s)
    ensures multiset(s)[c] == if c in s then 1 else 0
  {
    if s == [] {
    } else {
      CountOnce(s[1..], c);
      assert s == [s[0]] + s[1..];
    }
  }

  lemma {:induction false} LiveSnapshot(config: Config, st: State, now: int, live: set<Candidate>)
    requires InRange(config, st) && Distinct(config.candidates)
    requires forall c :: c in config.candidates ==> (Eligible(st, c, now) <==> c in live)
    requires forall x :: x in live ==> x in config.candidates
    ensures var seen := Snapshot(config, st, now);
            multiset(seen) == multiset(live) && |seen| == |live| && Distinct(seen)
  {
    var seen := Snapshot(config, st, now);
    forall x
      ensures multiset(seen)[x] == if x in live then 1 else 0
    {
      AvailableCounts(Rotated(config.candidates, st.cursor), st, now, x);
      RotatedSameElements(config.candidates, st.cursor);
      CountOnce(config.candidates, x);
    }
    assert multiset(seen) == multiset(live);
    OnceIsDistinct(seen);
  }

  /** No candidate is listed twice. */
  ghost predicate Once<T(!new)>(s: seq<T>) {
    forall x :: multiset(s)[x] <= 1
  }

  lemma {:induction false} OnceIsDistinct<T(!new)>(s: seq<T>)
    requires Once(s)
    ensures Distinct(s) && |s| == |multiset(s)|
  {
    if s == [] {
    } else {
      var rest := s[1..];
      assert s == [s[0]] + rest;
      assert multiset(s) == multiset{s[0]} + multiset(rest);
      assert forall x :: multiset(rest)[x] <= multiset(s)[x];
      OnceIsDistinct(rest);
      assert multiset(s)[s[0]] == 1 + multiset(rest)[s[0]];
      assert s[0] !in rest;
    }
  }

  lemma {:induction false} NonEmpty(m: nat, n: nat)
    requires m > 0 && n > 0
    ensures m * n > 0
  {
  }

  /**
   * Sharing, for any configuration: as long as no candidate is configured twice or no success is reported, in as many
   * rounds as `m` times what the first call sees, each live candidate comes first `m` times for every place it is
   * configured at, and no other ever does.
   */
  lemma {:induction false} RoundsAreShared(config: Config, st: State, rounds: seq<Round>, live: set<Candidate>,
                                           m: nat, c: Candidate)
    requires InRange(config, st) && config.RoundRobin() && forall r :: r in rounds ==> Idle(config, r)
    requires rounds != [] && Steady(config, st, rounds, live)
    requires var seen := Snapshot(config, st, rounds[0].now); seen != [] && |rounds| == m * |seen|
    ensures multiset(Firsts(config, st, rounds))[c] == m * if c in live then multiset(config.candidates)[c] else 0
  {
    var seen := Snapshot(config, st, rounds[0].now);
    FirstsGoRound(config, st, rounds, live);
    PeriodicCount(Firsts(config, st, rounds), seen, m, c);
    AvailableCounts(Rotated(config.candidates, st.cursor), st, rounds[0].now, c);
    RotatedSameElements(config.candidates, st.cursor);
    assert c in multiset(config.candidates) <==> c in config.candidates;
  }

  /**
   * Fairness: from every reachable cursor, in any `m * |live|` consecutive rounds each of the live candidates comes
   * first exactly `m` times.
   */
  lemma {:induction false} RoundRobinIsFair(config: Config, st: State, rounds: seq<Round>, live: set<Candidate>,
                                            m: nat, c: Candidate)
    requires InRange(config, st) && config.RoundRobin() && Once(config.candidates)
    requires Steady(config, st, rounds, live)
    requires c in live && (forall x :: x in live ==> x in config.candidates)
    requires |rounds| == m * |live|
    ensures multiset(Firsts(config, st, rounds))[c] == m
  {
    OnceIsDistinct(config.candidates);
    if m == 0 {
      assert |rounds| == 0 && Firsts(config, st, rounds) == [];
    } else {
      NonEmpty(m, |live|);
      LiveSnapshot(config, st, rounds[0].now, live);
      RoundsAreShared(config, st, rounds, live, m, c);
      CountOnce(config.candidates, c);
    }
  }

  /** A configuration that lists `a` twice before `b`. */
  function Doubled(a: Candidate, b: Candidate, cooldown: int): Config {
    Config("round_robin", cooldown, [a, a, b])
  }

  /** On it, a successful round from either place of `a` sees `a` first, and ends at the second one. */
  lemma {:induction false} SuccessGoesBack(a: Candidate, b: Candidate, cooldown: int, st: State, round: Round)
    requires a != b && st.cursor < 2 && st.cooldowns == map[] && round.succeeded
    ensures var config := Doubled(a, b, cooldown);
            && Snapshot(config, st, round.now) != [] && Snapshot(config, st, round.now)[0] == a
            && AfterRound(config, st, round) == State(1, map[])
  {
    var config := Doubled(a, b, cooldown);
    var all := Rotated(config.candidates, st.cursor);
    RotatedAt(config.candidates, st.cursor, 0);
    assert all[0] == a && Eligible(st, a, round.now);
    assert Skipped(all, st, round.now) == 0;
    assert Position(config.candidates, a) == 0;
  }

  /**
   * With a candidate configured twice, success starves another one: from either place of `a`, if every round reports
   * success, `b` never comes first.
   */
  lemma {:induction false} RepeatedCandidateStarves(a: Candidate, b: Candidate, cooldown: int, st: State,
                                                    rounds: seq<Round>)
    requires a != b && st.cursor < 2 && st.cooldowns == map[]
    requires forall r :: r in rounds ==> r.succeeded
    ensures var firsts := Firsts(Doubled(a, b, cooldown), st, rounds);
            |firsts| == |rounds| && forall c :: c in firsts ==> c == a
    decreases |rounds|
  {
    if rounds == [] {
    } else {
      SuccessGoesBack(a, b, cooldown, st, rounds[0]);
      RepeatedCandidateStarves(a, b, cooldown, AfterRound(Doubled(a, b, cooldown), st, rounds[0]), rounds[1..]);
    }
  }
}
