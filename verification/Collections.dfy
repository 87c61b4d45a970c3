/** Choosing from sets, and regrouping concatenations in proofs about growing outputs. */
module Collections {
  lemma {:induction false} Regroup<T>(a: seq<T>, b: seq<T>, c: seq<T>)
    ensures (a + b) + c == a + (b + c)
  {
  }

  lemma {:induction false} PlusNothing<T>(a: seq<T>)
    ensures a + [] == a
  {
  }

  lemma {:induction false} Regroup4<T>(a: seq<T>, b: seq<T>, c: seq<T>, d: seq<T>)
    ensures ((a + b) + c) + d == a + ((b + c) + d)
  {
  }

  lemma {:induction false} Resplit<T>(a: seq<T>, b: seq<T>, a': seq<T>, b': seq<T>, c: seq<T>, d: seq<T>)
    requires a + b == a' + b'
    ensures a + ((b + c) + d) == (a' + (b' + c)) + d
  {
    Regroup4(a, b, c, d);
    Regroup(a', b', c);
  }

  lemma {:induction false} PrefixNext<T>(s: seq<T>, k: nat)
    requires k < |s|
    ensures s[..k + 1] == s[..k] + [s[k]]
  {
  }

  lemma {:induction false} WholePrefix<T>(s: seq<T>)
    ensures s[..|s|] == s
  {
  }

  ghost predicate Ascends(at: seq<nat>) {
    forall i, j :: 0 <= i < j < |at| ==> at[i] < at[j]
  }

  /** One position more, past all the others. */
  lemma {:induction false} AscendsNext(at: seq<nat>, n: nat)
    requires Ascends(at) && forall k :: k in at ==> k < n
    ensures Ascends(at + [n])
    ensures forall k :: k in at + [n] <==> k in at || k == n
  {
    assert forall i :: 0 <= i < |at| ==> at[i] in at;
  }

  ghost predicate Distinct<T(!new)>(s: seq<T>) {
    forall i, j :: 0 <= i < j < |s| ==> s[i] != s[j]
  }

  ghost function Any<T>(s: set<T>): (x: T)
    requires s != {}
    ensures x in s
  {
    var x :| x in s;
    x
  }

  /** Some member: the order in which a Go map is visited is unspecified. */
  method Pick<T(==)>(s: set<T>) returns (x: T)
    requires s != {}
    ensures x in s
  {
    x :| x in s;
  }
}
