/**
 * The candidate selector of one virtual model: a cursor, a cooldown map and a clock.
 *
 * `Selector` is the object the request handlers share. Its methods are specified by `Snapshot` and `Apply`
 * over the plain value `State`; the run properties (cooldown, fairness) are lemmas about those.
 * The clock is a parameter: every operation is handed the instant it reads under the lock.
 */
module Routing {
  import opened Chat
  import opened Collections

  /** Thirty seconds, in nanoseconds. */
  const DEFAULT_COOLDOWN := 30_000_000_000

  datatype Candidate = Candidate(provider: string, model: string)

  datatype Config = Config(strategy: string, cooldown: int, candidates: seq<Candidate>) {
    predicate RoundRobin() { strategy == "round_robin" }
  }

  datatype State = State(cursor: nat, cooldowns: map<Candidate, int>)

  const INITIAL := State(0, map[])

  ghost predicate InRange(config: Config, st: State) {
    st.cursor < |config.candidates| || (st.cursor == 0 && config.candidates == [])
  }

  predicate Eligible(st: State, c: Candidate, now: int) {
    c in st.cooldowns ==> st.cooldowns[c] <= now
  }

  function Rotated<T>(s: seq<T>, k: nat): (r: seq<T>)
    requires k <= |s|
    ensures |r| == |s|
  {
    s[k..] + s[..k]
  }

  /** The members of `cands` that are not cooling down, in order. */
  function Available(cands: seq<Candidate>, st: State, now: int): seq<Candidate> {
    if cands == [] then []
    else (if Eligible(st, cands[0], now) then [cands[0]] else []) + Available(cands[1..], st, now)
  }

  /** What one call sees: the configuration rotated to the cursor, without the candidates cooling down. */
  ghost function Snapshot(config: Config, st: State, now: int): seq<Candidate>
    requires InRange(config, st)
  {
    Available(Rotated(config.candidates, st.cursor), st, now)
  }

  /** How many candidates are skipped before the first eligible one. */
  ghost function Skipped(cands: seq<Candidate>, st: State, now: int): (k: nat)
    ensures k <= |cands|
    ensures forall i :: 0 <= i < k ==> !Eligible(st, cands[i], now)
    ensures k < |cands| ==> Eligible(st, cands[k], now)
  {
    if cands == [] || Eligible(st, cands[0], now) then 0 else 1 + Skipped(cands[1..], st, now)
  }

  /** The first position of `c`, or the length when there is none. */
  function Position(cands: seq<Candidate>, c: Candidate): (k: nat)
    ensures k <= |cands|
    ensures forall i :: 0 <= i < k ==> cands[i] != c
    ensures k < |cands| ==> cands[k] == c
  {
    if cands == [] || cands[0] == c then 0 else 1 + Position(cands[1..], c)
  }

  /** `a` reduced modulo `n`, for sums of two positions. */
  function Wrap(a: nat, n: nat): (r: nat)
    requires a < 2 * n
    ensures r < n
  {
    if a < n then a else a - n
  }

  method Mod(a: nat, n: nat) returns (r: nat)
    requires a < 2 * n
    ensures r == Wrap(a, n)
  {
    r := a % n;
  }

  /** One step along the candidates, `out` being what was available so far. */
  lemma {:induction false} AvailableNext(out: seq<Candidate>, cands: seq<Candidate>, st: State, now: int, i: nat)
    requires i < |cands|
    ensures out + Available(cands[i..], st, now) ==
            (if Eligible(st, cands[i], now) then out + [cands[i]] else out) + Available(cands[i + 1..], st, now)
  {
    assert cands[i..][1..] == cands[i + 1..];
    Regroup(out, [cands[i]], Available(cands[i + 1..], st, now));
    assert [] + Available(cands[i + 1..], st, now) == Available(cands[i + 1..], st, now);
  }

  lemma {:induction false} SkippedIsFirst(cands: seq<Candidate>, st: State, now: int, i: nat)
    requires i < |cands|
    ensures i <= Skipped(cands, st, now) ==> (Skipped(cands, st, now) == i <==> Eligible(st, cands[i], now))
  {
  }

  lemma {:induction false} RotatedAt<T>(s: seq<T>, k: nat, i: nat)
    requires k <= |s| && i < |s|
    ensures Rotated(s, k)[i] == s[Wrap(k + i, |s|)]
  {
  }

  datatype Op = Begin(now: int) | Failure(c: Candidate, now: int) | Success(c: Candidate)

  /** The position after `c` under round robin; `c` need not be configured. */
  ghost function Past(config: Config, st: State, c: Candidate): (cursor: nat)
    requires InRange(config, st)
    ensures InRange(config, st.(cursor := cursor))
  {
    var k := Position(config.candidates, c);
    if config.RoundRobin() && k < |config.candidates| then Wrap(k + 1, |config.candidates|) else st.cursor
  }

  ghost function Apply(config: Config, st: State, op: Op): (r: State)
    requires InRange(config, st)
    ensures InRange(config, r)
  {
    match op
    case Begin(now) =>
      var k := Skipped(Rotated(config.candidates, st.cursor), st, now);
      if config.RoundRobin() && k < |config.candidates|
      then st.(cursor := Wrap(Wrap(st.cursor + k, |config.candidates|) + 1, |config.candidates|))
      else st
    case Failure(c, now) => State(Past(config, st, c), st.cooldowns[c := now + config.cooldown])
    case Success(c) => st.(cursor := Past(config, st, c))
  }

  // ---- the shared object ----------------------------------------------------------------------

  class Selector {
    const config: Config
    var cursor: nat
    var cooldowns: map<Candidate, int>

    ghost function View(): State
      reads this
    {
      State(cursor, cooldowns)
    }

    ghost predicate Valid()
      reads this
    {
      InRange(config, View())
    }

    /** `cooldown`, in nanoseconds, is None when the configured text is empty or no duration. */
    constructor (strategy: string, cooldown: Option<int>, candidates: seq<Candidate>)
      ensures config.strategy == strategy && config.candidates == candidates
      ensures config.cooldown == if cooldown.Some? then cooldown.value else 30_000_000_000
      ensures Valid() && View() == INITIAL
    {
      var window := DEFAULT_COOLDOWN;
      if cooldown.Some? {
        window := cooldown.value;
      }
      config := Config(strategy, window, candidates);
      cursor, cooldowns := 0, map[];
    }

    method Begin(now: int) returns (out: seq<Candidate>)
      requires Valid()
      modifies this
      ensures Valid() && View() == Apply(config, old(View()), Op.Begin(now))
      ensures out == Snapshot(config, old(View()), now)
    {
      var n := |config.candidates|;
      if n == 0 {
        return [];
      }
      var firstIdx;
      out, firstIdx := Scan(now);
      if config.strategy == "round_robin" && firstIdx != -1 {
        cursor := Mod(firstIdx + 1, n);
      }
    }

    /** One pass over the candidates from the cursor on; `firstIdx` is the position of the first eligible one, or -1. */
    method Scan(now: int) returns (out: seq<Candidate>, firstIdx: int)
      requires Valid() && config.candidates != []
      ensures out == Snapshot(config, View(), now)
      ensures var skipped := Skipped(Rotated(config.candidates, cursor), View(), now);
              firstIdx == if skipped == |config.candidates| then -1 else Wrap(cursor + skipped, |config.candidates|)
    {
      var n := |config.candidates|;
      ghost var st := View();
      ghost var rotated := Rotated(config.candidates, cursor);
      ghost var skipped := Skipped(rotated, st, now);
      ghost var first := if skipped == n then -1 else Wrap(cursor + skipped, n);
      ghost var all := Available(rotated, st, now);
      out, firstIdx := [], -1;
      for i := 0 to n
        invariant out + Available(rotated[i..], st, now) == all
        invariant firstIdx == if i <= skipped then -1 else first
      {
        AvailableNext(out, rotated, st, now, i);
        SkippedIsFirst(rotated, st, now, i);
        RotatedAt(config.candidates, cursor, i);
        var idx := Mod(cursor + i, n);
        var c := config.candidates[idx];
        if c in cooldowns && now < cooldowns[c] {
          continue;
        }
        if firstIdx == -1 {
          firstIdx := idx;
        }
        out := out + [c];
      }
    }

    method IndexOf(c: Candidate) returns (idx: int)
      ensures c in config.candidates ==> idx == Position(config.candidates, c)
      ensures c !in config.candidates ==> idx == -1
    {
      for i := 0 to |config.candidates|
        invariant c !in config.candidates[..i]
      {
        if config.candidates[i] == c {
          return i;
        }
      }
      return -1;
    }

    method RecordFailure(c: Candidate, now: int)
      requires Valid()
      modifies this
      ensures Valid() && View() == Apply(config, old(View()), Failure(c, now))
    {
      cooldowns := cooldowns[c := now + config.cooldown];
      if config.strategy == "round_robin" {
        var idx := IndexOf(c);
        if idx >= 0 {
          cursor := Mod(idx + 1, |config.candidates|);
        }
      }
    }

    method RecordSuccess(c: Candidate)
      requires Valid()
      modifies this
      ensures Valid() && View() == Apply(config, old(View()), Success(c))
    {
      if config.strategy == "round_robin" {
        var idx := IndexOf(c);
        if idx >= 0 {
          cursor := Mod(idx + 1, |config.candidates|);
        }
      }
    }
  }
}
