/**
 * The cache that echoes a model's reasoning back on the next turn, keyed by session and tool-call id.
 *
 * The cache is a nested map that resets to the writing session when it overflows, and it may be backed by a file. It
 * is compared with the plain history of what was remembered.
 */
module ReasoningCache {
  import opened Chat
  import opened Collections

  const MAX_ENTRIES := 4096

  type Entries = map<string, map<string, string>>

  datatype Write = Write(session: string, calls: seq<ToolCall>, reasoning: string)

  function Named(calls: seq<ToolCall>): set<string> {
    set tc | tc in calls && tc.id != "" :: tc.id
  }

  ghost function Pairs(m: Entries): set<(string, string)> {
    set s, id | s in m && id in m[s] :: (s, id)
  }

  /** The total number of cached entries. */
  ghost function Size(m: Entries): nat {
    |Pairs(m)|
  }

  function Session(m: Entries, s: string): map<string, string> {
    if s in m then m[s] else map[]
  }

  function Find(m: Entries, s: string, id: string): string {
    var per := Session(m, s);
    if id in per then per[id] else ""
  }

  /** The writing session's entries after the write. */
  function Updated(m: Entries, w: Write): map<string, string> {
    Session(m, w.session) + Mark(Named(w.calls), w.reasoning)
  }

  function Mark(ids: set<string>, reasoning: string): map<string, string> {
    map id | id in ids :: reasoning
  }

  ghost predicate Overflows(m: Entries, w: Write) {
    w.reasoning != "" && Size(m[w.session := Updated(m, w)]) > MAX_ENTRIES
  }

  ghost function Apply(m: Entries, w: Write): Entries {
    if w.reasoning == "" then m
    else if Overflows(m, w) then map[w.session := Updated(m, w)]
    else m[w.session := Updated(m, w)]
  }

  /**
   * The cache, and what its file holds: the entries that decoding it leaves in the map, be they only some of those in
   * the file. None is a file that is missing or is no JSON text at all.
   */
  datatype Store = Store(m: Entries, disk: Option<Entries>)

  /** A new cache has what was stored, if it has a file. */
  function Loaded(backed: bool, stored: Option<Entries>): Store {
    Store(if backed && stored.Some? then stored.value else map[], stored)
  }

  ghost function Stored(backed: bool, st: Store, w: Write): Store {
    var m := Apply(st.m, w);
    Store(m, if backed && w.reasoning != "" then Some(m) else st.disk)
  }

  const PLACEHOLDER := "[reasoning omitted by client]"

  /** The echo is keyed by the turn's first call. */
  method FillReasoningEcho(cache: Cache, session: string, msg: Message) returns (filled: Message)
    ensures filled == Echoed(cache.m, session, msg)
  {
    if !msg.role.Assistant? || |msg.toolCalls| == 0 || msg.reasoning != "" {
      return msg;
    }
    var r := cache.Lookup(session, msg.toolCalls[0].id);
    return if r != "" then msg.(reasoning := r) else msg.(reasoning := PLACEHOLDER);
  }

  ghost function Echoed(m: Entries, session: string, msg: Message): Message {
    if !msg.role.Assistant? || msg.toolCalls == [] || msg.reasoning != "" then msg
    else
      var found := Find(m, session, msg.toolCalls[0].id);
      msg.(reasoning := if found == "" then PLACEHOLDER else found)
  }

  lemma {:induction false} MarkNext(before: map<string, string>, calls: seq<ToolCall>, call: ToolCall,
                                    reasoning: string)
    ensures var per := before + Mark(Named(calls), reasoning);
            before + Mark(Named(calls + [call]), reasoning) == if call.id != "" then per[call.id := reasoning] else per
  {
    if call.id != "" {
      assert Named(calls + [call]) == Named(calls) + {call.id} by {
        assert call in calls + [call];
        assert forall tc :: tc in calls ==> tc in calls + [call];
      }
    } else {
      assert Named(calls + [call]) == Named(calls) by {
        assert forall tc :: tc in calls ==> tc in calls + [call];
      }
    }
  }

  ghost function Tagged(ids: set<string>, s: string): set<(string, string)> {
    set id | id in ids :: (s, id)
  }

  lemma {:induction false} TagKeepsSize(ids: set<string>, s: string)
    ensures |Tagged(ids, s)| == |ids|
  {
    if ids == {} {
    } else {
      var id := Any(ids);
      TagKeepsSize(ids - {id}, s);
      assert Tagged(ids, s) == Tagged(ids - {id}, s) + {(s, id)};
    }
  }

  lemma {:induction false} SizeRemove(m: Entries, s: string)
    requires s in m
    ensures Size(m) == |m[s]| + Size(m - {s})
  {
    var here := set id | id in m[s] :: (s, id);
    assert Pairs(m) == here + Pairs(m - {s});
    TagKeepsSize(m[s].Keys, s);
    assert here == Tagged(m[s].Keys, s);
  }

  class Cache {
    const backed: bool
    var m: Entries
    var disk: Option<Entries>

    function View(): Store
      reads this
    {
      Store(m, disk)
    }

    constructor (backed: bool, stored: Option<Entries>)
      ensures this.backed == backed && View() == Loaded(backed, stored)
    {
      this.backed, disk := backed, stored;
      m := map[];
      if backed {
        if stored.Some? {
          m := stored.value;
        }
      }
    }

    method Remember(session: string, calls: seq<ToolCall>, reasoning: string)
      modifies this
      ensures View() == Stored(backed, old(View()), Write(session, calls, reasoning))
    {
      if reasoning == "" {
        return;
      }
      var per := if session in m then m[session] else map[];
      ghost var before := per;
      for i := 0 to |calls|
        invariant View() == old(View()) && per == before + Mark(Named(calls[..i]), reasoning)
      {
        MarkNext(before, calls[..i], calls[i], reasoning);
        assert calls[..i + 1] == calls[..i] + [calls[i]];
        if calls[i].id != "" {
          per := per[calls[i].id := reasoning];
        }
      }
      assert calls[..|calls|] == calls;
      assert per == Updated(m, Write(session, calls, reasoning));
      m := m[session := per];
      var total := CountEntries();
      assert total > MAX_ENTRIES <==> Overflows(old(m), Write(session, calls, reasoning));
      if total > MAX_ENTRIES {
        m := map[session := per];
      }
      Save();
    }

    method Save()
      modifies this`disk
      ensures disk == if backed then Some(m) else old(disk)
    {
      if !backed {
        return;
      }
      disk := Some(m);
    }

    /** Go visits the sessions in an unspecified order; the sum does not depend on it. */
    method CountEntries() returns (total: nat)
      ensures total == Size(m)
    {
      total := 0;
      var rest := m.Keys;
      assert (map s | s in rest :: m[s]) == m;
      while rest != {}
        invariant rest <= m.Keys
        invariant total + Size(map s | s in rest :: m[s]) == Size(m)
        decreases rest
      {
        var s := Pick(rest);
        SizeRemove(map x | x in rest :: m[x], s);
        assert (map x | x in rest :: m[x]) - {s} == map x | x in rest - {s} :: m[x];
        total := total + |m[s]|;
        rest := rest - {s};
      }
      assert rest == {} && Pairs(map[]) == {};
    }

    method Lookup(session: string, callId: string) returns (reasoning: string)
      ensures reasoning == Find(m, session, callId)
    {
      if session in m {
        var per := m[session];
        reasoning := if callId in per then per[callId] else "";
      } else {
        reasoning := "";
      }
    }
  }

  // ---- the history ----------------------------------------------------------------------------

  ghost function Run(start: Entries, history: seq<Write>): Entries {
    if history == [] then start else Apply(Run(start, history[..|history| - 1]), history[|history| - 1])
  }

  predicate Writes(w: Write, session: string, id: string) {
    w.session == session && w.reasoning != "" && id in Named(w.calls)
  }

  /** The index of the last write of (session, id), or -1. */
  ghost function LastWrite(history: seq<Write>, session: string, id: string): (k: int)
    ensures -1 <= k < |history|
    ensures k >= 0 ==> Writes(history[k], session, id)
    ensures forall i :: k < i < |history| ==> !Writes(history[i], session, id)
  {
    if history == [] then -1
    else
      var n := |history| - 1;
      if Writes(history[n], session, id) then n else LastWrite(history[..n], session, id)
  }

  /** Another session's write at `i` overflowed the cache. */
  ghost predicate Evicts(start: Entries, history: seq<Write>, i: nat, session: string)
    requires i < |history|
  {
    history[i].session != session && Overflows(Run(start, history[..i]), history[i])
  }

  /** From the write at `from` on, no other session's write overflowed the cache. */
  ghost predicate Undisturbed(start: Entries, history: seq<Write>, from: nat, session: string) {
    forall i :: from <= i < |history| ==> !Evicts(start, history, i, session)
  }

  /**
   * The last reasoning remembered for this session and id, or what the cache started with; nothing if another session
   * overflowed the cache since.
   */
  ghost function Kept(start: Entries, history: seq<Write>, session: string, id: string): string {
    var k := LastWrite(history, session, id);
    if !Undisturbed(start, history, k + 1, session) then ""
    else if k >= 0 then history[k].reasoning
    else Find(start, session, id)
  }

  lemma {:induction false} UndisturbedNext(start: Entries, history: seq<Write>, w: Write, from: nat, session: string)
    requires from <= |history|
    ensures Undisturbed(start, history + [w], from, session) <==>
            Undisturbed(start, history, from, session)
            && !(w.session != session && Overflows(Run(start, history), w))
  {
    var after, n := history + [w], |history|;
    assert after[..n] == history;
    forall i | 0 <= i < n
      ensures Evicts(start, after, i, session) <==> Evicts(start, history, i, session)
    {
      assert after[..i] == history[..i];
    }
    assert Evicts(start, after, n, session) <==> w.session != session && Overflows(Run(start, history), w);
  }

  lemma {:induction false} KeptNext(start: Entries, history: seq<Write>, w: Write, session: string, id: string)
    ensures Kept(start, history + [w], session, id) ==
            if Writes(w, session, id) then w.reasoning
            else if w.session != session && Overflows(Run(start, history), w) then ""
            else Kept(start, history, session, id)
  {
    assert (history + [w])[..|history|] == history;
    if !Writes(w, session, id) {
      UndisturbedNext(start, history, w, LastWrite(history, session, id) + 1, session);
    }
  }

  lemma {:induction false} FindNext(m: Entries, w: Write, session: string, id: string)
    ensures Find(Apply(m, w), session, id) ==
            if Writes(w, session, id) then w.reasoning
            else if w.session != session && Overflows(m, w) then ""
            else Find(m, session, id)
  {
  }

  /** After any history of writes, a lookup finds exactly what `Kept` says. */
  lemma {:induction false} LookupIsLastWrite(start: Entries, history: seq<Write>, session: string, id: string)
    ensures Find(Run(start, history), session, id) == Kept(start, history, session, id)
  {
    if history == [] {
    } else {
      var n := |history| - 1;
      var before, w := history[..n], history[n];
      assert history == before + [w];
      LookupIsLastWrite(start, before, session, id);
      KeptNext(start, before, w, session, id);
      FindNext(Run(start, before), w, session, id);
    }
  }

  /** What was just remembered is found for each of its named calls, even when remembering it overflowed the cache. */
  lemma {:induction false} JustRemembered(start: Entries, history: seq<Write>, w: Write, call: ToolCall)
    requires w.reasoning != "" && call in w.calls && call.id != ""
    ensures Find(Run(start, history + [w]), w.session, call.id) == w.reasoning
  {
    assert call.id in Named(w.calls);
    LookupIsLastWrite(start, history + [w], w.session, call.id);
  }

  /** An overflow drops other sessions only: the writing session keeps all it had but for the calls it names. */
  lemma {:induction false} OverflowKeepsOwnSession(start: Entries, history: seq<Write>, w: Write, id: string)
    requires id == "" || forall call :: call in w.calls ==> call.id != id
    ensures Find(Run(start, history + [w]), w.session, id) == Find(Run(start, history), w.session, id)
  {
    assert (history + [w])[..|history|] == history;
    assert id !in Named(w.calls);
  }

  lemma {:induction false} NamedAtMost(calls: seq<ToolCall>)
    ensures |Named(calls)| <= |calls|
  {
    if calls == [] {
      assert Named(calls) == {};
    } else {
      var before, call := calls[..|calls| - 1], calls[|calls| - 1];
      NamedAtMost(before);
      assert forall tc :: tc in calls <==> tc in before || tc == call;
      assert Named(calls) <= Named(before) + {call.id};
      Fewer(Named(calls), Named(before) + {call.id});
    }
  }

  lemma {:induction false} Fewer<T>(a: set<T>, b: set<T>)
    requires a <= b
    ensures |a| <= |b|
    decreases a
  {
    if a == {} {
    } else {
      var x := Any(a);
      Fewer(a - {x}, b - {x});
    }
  }

  lemma {:induction false} UpdatedAtMost(m: Entries, w: Write)
    ensures |Updated(m, w)| <= |Session(m, w.session)| + |w.calls|
  {
    var before, ids := Session(m, w.session), Named(w.calls);
    assert Updated(m, w).Keys == before.Keys + ids;
    NamedAtMost(w.calls);
  }

  lemma {:induction false} SizeSplits(m: Entries, s: string)
    ensures Size(m) == |Session(m, s)| + Size(m - {s})
  {
    if s in m {
      SizeRemove(m, s);
    } else {
      assert m - {s} == m;
    }
  }

  lemma {:induction false} SizeAfter(m: Entries, w: Write)
    ensures Size(m[w.session := Updated(m, w)]) <= Size(m) + |w.calls|
  {
    var s, after := w.session, m[w.session := Updated(m, w)];
    UpdatedAtMost(m, w);
    SizeSplits(m, s);
    SizeSplits(after, s);
    assert after - {s} == m - {s};
  }

  /** As long as there is room for 4096 entries, no write takes anything from another session. */
  lemma {:induction false} NothingIsLost(start: Entries, history: seq<Write>, w: Write, session: string, id: string)
    requires session != w.session && Size(Run(start, history)) + |w.calls| <= 4096
    ensures Find(Run(start, history + [w]), session, id) == Find(Run(start, history), session, id)
  {
    assert (history + [w])[..|history|] == history;
    SizeAfter(Run(start, history), w);
  }

  /**
   * The bound: at most 4096 entries in all, or one session holds everything. It holds from the first write on, whatever
   * the cache was loaded with, and always if it holds for that.
   */
  lemma {:induction false} Bounded(start: Entries, history: seq<Write>)
    requires Size(start) <= 4096 || |start| == 1 || exists w :: w in history && w.reasoning != ""
    ensures var m := Run(start, history); Size(m) <= 4096 || |m| == 1
  {
    if history == [] {
    } else {
      var before, w := history[..|history| - 1], history[|history| - 1];
      if w.reasoning == "" {
        assert forall x :: x in history <==> x in before || x == w;
        Bounded(start, before);
      }
      assert |map[w.session := Updated(Run(start, before), w)]| == 1;
    }
  }

  /**
   * An assistant turn with calls that a client sends back without reasoning is routed with the reasoning kept for its
   * first call, or with the placeholder when there is none, and with nothing else changed; every other message is
   * routed as it is.
   */
  lemma {:induction false} EchoRestoresReasoning(start: Entries, history: seq<Write>, session: string, msg: Message)
    ensures var filled := Echoed(Run(start, history), session, msg);
            if msg.role == Assistant && msg.toolCalls != [] && msg.reasoning == "" then
              var kept := Kept(start, history, session, msg.toolCalls[0].id);
              && filled.reasoning == (if kept != "" then kept else "[reasoning omitted by client]")
              && filled.(reasoning := "") == msg
            else filled == msg
  {
    if msg.toolCalls != [] {
      LookupIsLastWrite(start, history, session, msg.toolCalls[0].id);
    }
  }

  // ---- the file -------------------------------------------------------------------------------

  ghost function StoreRun(backed: bool, start: Store, history: seq<Write>): Store {
    if history == [] then start
    else Stored(backed, StoreRun(backed, start, history[..|history| - 1]), history[|history| - 1])
  }

  /** A cache loaded from the file of another one has all that one had; without a file it starts empty. */
  lemma {:induction false} RestartLosesNothing(backed: bool, stored: Option<Entries>, history: seq<Write>)
    ensures var start := Loaded(backed, stored);
            var end := StoreRun(backed, start, history);
            && end.m == Run(start.m, history)
            && Loaded(backed, end.disk).m == if backed then end.m else map[]
  {
    if history == [] {
    } else {
      RestartLosesNothing(backed, stored, history[..|history| - 1]);
    }
  }
}
