/**
 * Putting streamed tool calls back together from fragments tagged with an index.
 *
 * `Calls` says what the fragments mean, index by index. The accumulator that the adapter updates fragment by fragment
 * computes the same, whatever order the fragments of different indices arrive in and whatever order the map is
 * visited in.
 */
module ToolCallFragments {
  import opened Chat
  import opened Collections

  datatype Fragment = Fragment(index: int, id: string, name: string, arguments: string)

  datatype Accum = Accum(id: string, name: string, arguments: string)

  // ---- what the fragments mean ----------------------------------------------------------------

  /** The fragments of one index, in order. */
  function At(fragments: seq<Fragment>, index: int): seq<Fragment> {
    if fragments == [] then []
    else
      var last := fragments[|fragments| - 1];
      At(fragments[..|fragments| - 1], index) + if last.index == index then [last] else []
  }

  function LastId(fragments: seq<Fragment>): string {
    if fragments == [] then ""
    else if fragments[|fragments| - 1].id != "" then fragments[|fragments| - 1].id
    else LastId(fragments[..|fragments| - 1])
  }

  function LastName(fragments: seq<Fragment>): string {
    if fragments == [] then ""
    else if fragments[|fragments| - 1].name != "" then fragments[|fragments| - 1].name
    else LastName(fragments[..|fragments| - 1])
  }

  function Arguments(fragments: seq<Fragment>): string {
    if fragments == [] then ""
    else Arguments(fragments[..|fragments| - 1]) + fragments[|fragments| - 1].arguments
  }

  /** The last non-empty id and name, and all arguments joined. */
  function Summary(fragments: seq<Fragment>): Accum {
    Accum(LastId(fragments), LastName(fragments), Arguments(fragments))
  }

  function Indices(fragments: seq<Fragment>): set<int> {
    set f | f in fragments :: f.index
  }

  ghost predicate Ascending(s: seq<int>) {
    |s| <= 1 || (s[0] < s[1] && Ascending(s[1..]))
  }

  function Elements(s: seq<int>): set<int> {
    set x | x in s
  }

  lemma {:induction false} ElementsCons(x: int, s: seq<int>)
    ensures Elements([x] + s) == {x} + Elements(s)
  {
  }

  lemma {:induction false} ElementsAppend(s: seq<int>, x: int)
    ensures Elements(s + [x]) == Elements(s) + {x}
  {
  }

  lemma {:induction false} DistinctAppend(s: seq<int>, x: int)
    requires Distinct(s) && x !in Elements(s)
    ensures Distinct(s + [x])
  {
    assert forall i :: 0 <= i < |s| ==> s[i] in Elements(s);
  }

  lemma {:induction false} HeadIsLeast(s: seq<int>, x: int)
    requires Ascending(s) && x in Elements(s)
    ensures s[0] <= x && (x == s[0] || x in Elements(s[1..]))
    ensures s[0] !in Elements(s[1..])
  {
    assert s == [s[0]] + s[1..];
    ElementsCons(s[0], s[1..]);
    if |s| <= 1 {
    } else {
      assert s[1..][0] in Elements(s[1..]);
      if x != s[0] {
        HeadIsLeast(s[1..], x);
      }
      if s[0] in Elements(s[1..]) {
        HeadIsLeast(s[1..], s[0]);
      }
    }
  }

  /** The members of a set in ascending order. */
  ghost function Sorted(s: set<int>): (r: seq<int>)
    ensures Ascending(r) && Elements(r) == s
    decreases |s|
  {
    if s == {} then []
    else
      var m := Least(s);
      var rest := Sorted(s - {m});
      ElementsCons(m, rest);
      assert rest != [] ==> rest[0] in Elements(rest);
      assert ([m] + rest)[1..] == rest;
      [m] + rest
  }

  ghost function Least(s: set<int>): (m: int)
    requires s != {}
    ensures m in s && forall x :: x in s ==> m <= x
    decreases |s|
  {
    var x := Any(s);
    if s == {x} then x
    else
      var m := Least(s - {x});
      assert forall y :: y in s ==> y == x || y in s - {x};
      if x < m then x else m
  }

  function CallOf(a: Accum): ToolCall {
    WithArguments(ToolCall(a.id, a.name, a.arguments))
  }

  ghost function CallsAt(fragments: seq<Fragment>, indices: seq<int>): seq<ToolCall> {
    if indices == [] then []
    else CallsAt(fragments, indices[..|indices| - 1]) + [CallOf(Summary(At(fragments, indices[|indices| - 1])))]
  }

  lemma {:induction false} CallsAtNext(fragments: seq<Fragment>, indices: seq<int>, i: int)
    ensures CallsAt(fragments, indices + [i]) == CallsAt(fragments, indices) + [CallOf(Summary(At(fragments, i)))]
  {
    assert (indices + [i])[..|indices|] == indices;
  }

  /** One call per index, in ascending index order. */
  ghost function Calls(fragments: seq<Fragment>): seq<ToolCall> {
    CallsAt(fragments, Sorted(Indices(fragments)))
  }

  // ---- interleaving ---------------------------------------------------------------------------

  lemma {:induction false} AtIsEmpty(fragments: seq<Fragment>, index: int)
    ensures At(fragments, index) != [] <==> index in Indices(fragments)
  {
    if fragments == [] {
    } else {
      var before, last := fragments[..|fragments| - 1], fragments[|fragments| - 1];
      AtIsEmpty(before, index);
      assert fragments == before + [last];
      assert Indices(fragments) == Indices(before) + {last.index};
    }
  }

  lemma {:induction false} CallsAtSame(f: seq<Fragment>, g: seq<Fragment>, indices: seq<int>)
    requires forall i :: At(f, i) == At(g, i)
    ensures CallsAt(f, indices) == CallsAt(g, indices)
  {
    if indices == [] {
    } else {
      CallsAtSame(f, g, indices[..|indices| - 1]);
    }
  }

  /** Two interleavings with the same fragments per index mean the same calls. */
  lemma {:induction false} InterleavingIsIrrelevant(f: seq<Fragment>, g: seq<Fragment>)
    requires forall i :: At(f, i) == At(g, i)
    ensures Calls(f) == Calls(g)
  {
    forall i
      ensures i in Indices(f) <==> i in Indices(g)
    {
      AtIsEmpty(f, i);
      AtIsEmpty(g, i);
    }
    assert Indices(f) == Indices(g);
    CallsAtSame(f, g, Sorted(Indices(f)));
  }

  // ---- what a call is put together from -------------------------------------------------------

  /** The fragment at `k` is the last of this index with an id; there is none if it is -1. */
  ghost predicate LastNamed(fragments: seq<Fragment>, index: int, k: int) {
    && -1 <= k < |fragments| && (k >= 0 ==> fragments[k].index == index && fragments[k].id != "")
    && forall i :: k < i < |fragments| && fragments[i].index == index ==> fragments[i].id == ""
  }

  /** The same for the name. */
  ghost predicate LastTitled(fragments: seq<Fragment>, index: int, k: int) {
    && -1 <= k < |fragments| && (k >= 0 ==> fragments[k].index == index && fragments[k].name != "")
    && forall i :: k < i < |fragments| && fragments[i].index == index ==> fragments[i].name == ""
  }

  lemma {:induction false} LastIdIs(fragments: seq<Fragment>, index: int, k: int)
    requires LastNamed(fragments, index, k)
    ensures LastId(At(fragments, index)) == if k < 0 then "" else fragments[k].id
  {
    if fragments == [] || k == |fragments| - 1 {
    } else {
      LastIdIs(fragments[..|fragments| - 1], index, k);
      PlusNothing(At(fragments[..|fragments| - 1], index));
      SnocId(At(fragments[..|fragments| - 1], index), fragments[|fragments| - 1]);
    }
  }

  lemma {:induction false} LastNameIs(fragments: seq<Fragment>, index: int, k: int)
    requires LastTitled(fragments, index, k)
    ensures LastName(At(fragments, index)) == if k < 0 then "" else fragments[k].name
  {
    if fragments == [] || k == |fragments| - 1 {
    } else {
      LastNameIs(fragments[..|fragments| - 1], index, k);
      PlusNothing(At(fragments[..|fragments| - 1], index));
      SnocId(At(fragments[..|fragments| - 1], index), fragments[|fragments| - 1]);
    }
  }

  lemma {:induction false} SnocId(fragments: seq<Fragment>, f: Fragment)
    ensures f.id == "" ==> LastId(fragments + [f]) == LastId(fragments)
    ensures f.name == "" ==> LastName(fragments + [f]) == LastName(fragments)
  {
    assert (fragments + [f])[..|fragments|] == fragments;
  }

  /** All argument texts of one index, in order. */
  function ArgumentsOf(fragments: seq<Fragment>, index: int): seq<string> {
    if fragments == [] then []
    else (if fragments[0].index == index then [fragments[0].arguments] else []) + ArgumentsOf(fragments[1..], index)
  }

  lemma {:induction false} ArgumentsNext(fragments: seq<Fragment>, f: Fragment, index: int)
    ensures ArgumentsOf(fragments + [f], index) ==
            ArgumentsOf(fragments, index) + if f.index == index then [f.arguments] else []
  {
    if fragments == [] {
      assert [f][1..] == [] && fragments + [f] == [f];
    } else {
      assert (fragments + [f])[1..] == fragments[1..] + [f];
      ArgumentsNext(fragments[1..], f, index);
    }
  }

  lemma {:induction false} ArgumentsAre(fragments: seq<Fragment>, index: int)
    ensures Arguments(At(fragments, index)) == Concat(ArgumentsOf(fragments, index))
  {
    if fragments == [] {
    } else {
      var before, f := fragments[..|fragments| - 1], fragments[|fragments| - 1];
      ArgumentsAre(before, index);
      assert fragments == before + [f];
      ArgumentsNext(before, f, index);
      AtNext(before, f, index);
      if f.index == index {
        assert (At(before, index) + [f])[..|At(before, index)|] == At(before, index);
        ConcatAppend(ArgumentsOf(before, index), [f.arguments]);
        assert [f.arguments][1..] == [] && f.arguments + "" == f.arguments;
      } else {
        PlusNothing(At(before, index));
        PlusNothing(ArgumentsOf(before, index));
      }
    }
  }

  lemma {:induction false} CallsAtLength(fragments: seq<Fragment>, indices: seq<int>)
    ensures |CallsAt(fragments, indices)| == |indices|
  {
    if indices == [] {
    } else {
      CallsAtLength(fragments, indices[..|indices| - 1]);
    }
  }

  lemma {:induction false} CallsAtIs(fragments: seq<Fragment>, indices: seq<int>, n: nat)
    requires n < |indices| == |CallsAt(fragments, indices)|
    ensures CallsAt(fragments, indices)[n] == CallOf(Summary(At(fragments, indices[n])))
  {
    var before := indices[..|indices| - 1];
    CallsAtLength(fragments, before);
    if n < |before| {
      CallsAtIs(fragments, before, n);
    }
  }

  /**
   * The calls: one for each index, in ascending order; each with the last id and the last name its fragments give, and
   * all their arguments joined, or an empty object if that is nothing.
   */
  lemma {:induction false} CallsAre(fragments: seq<Fragment>) returns (indices: seq<int>)
    ensures Ascending(indices) && (forall i :: i in indices <==> exists f :: f in fragments && f.index == i)
    ensures |Calls(fragments)| == |indices|
    ensures forall n :: 0 <= n < |indices| ==>
              var call, i := Calls(fragments)[n], indices[n];
              var arguments := Concat(ArgumentsOf(fragments, i));
              && call.arguments == (if arguments == "" then "{}" else arguments)
              && (forall k :: LastNamed(fragments, i, k) ==> call.id == if k < 0 then "" else fragments[k].id)
              && (forall k :: LastTitled(fragments, i, k) ==> call.name == if k < 0 then "" else fragments[k].name)
  {
    indices := Sorted(Indices(fragments));
    CallsAtLength(fragments, indices);
    assert forall i :: i in indices <==> i in Elements(indices);
    forall n | 0 <= n < |indices|
      ensures Calls(fragments)[n] == CallOf(Summary(At(fragments, indices[n])))
      ensures Arguments(At(fragments, indices[n])) == Concat(ArgumentsOf(fragments, indices[n]))
    {
      CallsAtIs(fragments, indices, n);
      ArgumentsAre(fragments, indices[n]);
    }
    forall i, k | LastNamed(fragments, i, k)
      ensures LastId(At(fragments, i)) == if k < 0 then "" else fragments[k].id
    {
      LastIdIs(fragments, i, k);
    }
    forall i, k | LastTitled(fragments, i, k)
      ensures LastName(At(fragments, i)) == if k < 0 then "" else fragments[k].name
    {
      LastNameIs(fragments, i, k);
    }
  }

  // ---- the accumulator ------------------------------------------------------------------------

  function Merge(a: Accum, f: Fragment): Accum {
    Accum(if f.id != "" then f.id else a.id, if f.name != "" then f.name else a.name, a.arguments + f.arguments)
  }

  /** The accumulator after one more fragment. */
  function Add(acc: map<int, Accum>, f: Fragment): map<int, Accum> {
    acc[f.index := Merge(if f.index in acc then acc[f.index] else Accum("", "", ""), f)]
  }

  /** The accumulator holds, index by index, what the fragments so far mean. */
  ghost predicate Holds(acc: map<int, Accum>, fragments: seq<Fragment>) {
    acc.Keys == Indices(fragments) && forall i :: i in acc ==> acc[i] == Summary(At(fragments, i))
  }

  lemma {:induction false} AtNext(fragments: seq<Fragment>, f: Fragment, i: int)
    ensures At(fragments + [f], i) == At(fragments, i) + if f.index == i then [f] else []
    ensures Indices(fragments + [f]) == Indices(fragments) + {f.index}
  {
    assert (fragments + [f])[..|fragments|] == fragments;
  }

  lemma {:induction false} SummaryNext(fragments: seq<Fragment>, f: Fragment)
    ensures Summary(fragments + [f]) == Merge(Summary(fragments), f)
  {
    assert (fragments + [f])[..|fragments|] == fragments;
  }

  lemma {:induction false} SummaryAtNext(fragments: seq<Fragment>, f: Fragment, i: int)
    ensures Summary(At(fragments + [f], i)) ==
            if f.index == i then Merge(Summary(At(fragments, i)), f) else Summary(At(fragments, i))
  {
    AtNext(fragments, f, i);
    if f.index == i {
      SummaryNext(At(fragments, i), f);
    } else {
      PlusNothing(At(fragments, i));
    }
  }

  lemma {:induction false} AddHolds(acc: map<int, Accum>, fragments: seq<Fragment>, f: Fragment)
    requires Holds(acc, fragments)
    ensures Holds(Add(acc, f), fragments + [f])
  {
    AtNext(fragments, f, f.index);
    AtIsEmpty(fragments, f.index);
    forall i | i in Add(acc, f)
      ensures Add(acc, f)[i] == Summary(At(fragments + [f], i))
    {
      AtNext(fragments, f, i);
      if i == f.index {
        SummaryNext(At(fragments, i), f);
      } else {
        assert At(fragments, i) + [] == At(fragments, i);
      }
    }
  }

  // ---- sorting the indices --------------------------------------------------------------------

  function Insert(s: seq<int>, x: int): (r: seq<int>)
    requires Ascending(s) && x !in Elements(s)
    ensures Ascending(r) && Elements(r) == Elements(s) + {x}
    ensures r != [] && (r[0] == x || (s != [] && r[0] == s[0]))
  {
    if s == [] || x < s[0] then
      ElementsCons(x, s);
      assert ([x] + s)[1..] == s;
      [x] + s
    else
      assert s == [s[0]] + s[1..];
      ElementsCons(s[0], s[1..]);
      var rest := Insert(s[1..], x);
      ElementsCons(s[0], rest);
      assert ([s[0]] + rest)[1..] == rest;
      [s[0]] + rest
  }

  /** Sorts distinct integers ascending. */
  method SortInts(s: seq<int>) returns (r: seq<int>)
    requires Distinct(s)
    ensures r == Sorted(Elements(s))
  {
    r := [];
    for i := 0 to |s|
      invariant Ascending(r) && Elements(r) == Elements(s[..i])
    {
      assert s[i] !in Elements(s[..i]);
      PrefixNext(s, i);
      ElementsAppend(s[..i], s[i]);
      r := Insert(r, s[i]);
    }
    WholePrefix(s);
    AscendingIsUnique(r, Sorted(Elements(s)));
  }

  lemma {:induction false} AscendingIsUnique(a: seq<int>, b: seq<int>)
    requires Ascending(a) && Ascending(b) && Elements(a) == Elements(b)
    ensures a == b
  {
    if a != [] && b != [] {
      assert a[0] in Elements(a);
      assert b[0] in Elements(b);
      HeadIsLeast(a, b[0]);
      HeadIsLeast(b, a[0]);
      assert a == [a[0]] + a[1..] && b == [b[0]] + b[1..];
      ElementsCons(a[0], a[1..]);
      ElementsCons(b[0], b[1..]);
      assert Elements(a[1..]) == Elements(a) - {a[0]};
      assert Elements(b[1..]) == Elements(b) - {b[0]};
      AscendingIsUnique(a[1..], b[1..]);
    } else {
      NoElements(a);
      NoElements(b);
    }
  }

  lemma {:induction false} NoElements(s: seq<int>)
    ensures Elements(s) == {} <==> s == []
  {
    assert |s| > 0 ==> s[0] in Elements(s);
  }

  /** The indices of the accumulator, visited in an arbitrary order and then sorted. */
  method SortedIndices(acc: map<int, Accum>) returns (indices: seq<int>)
    ensures indices == Sorted(acc.Keys)
  {
    indices := [];
    var rest := acc.Keys;
    while rest != {}
      invariant rest <= acc.Keys && Elements(indices) == acc.Keys - rest
      invariant Distinct(indices)
      decreases rest
    {
      var i := Pick(rest);
      assert i !in Elements(indices);
      ElementsAppend(indices, i);
      DistinctAppend(indices, i);
      indices := indices + [i];
      rest := rest - {i};
    }
    assert Elements(indices) == acc.Keys;
    indices := SortInts(indices);
  }

  method BuildCalls(acc: map<int, Accum>, ghost fragments: seq<Fragment>) returns (calls: seq<ToolCall>)
    requires Holds(acc, fragments)
    ensures calls == Calls(fragments)
  {
    var indices := SortedIndices(acc);
    calls := [];
    for k := 0 to |indices|
      invariant calls == CallsAt(fragments, indices[..k])
    {
      assert indices[k] in Elements(indices);
      var a := acc[indices[k]];
      var args := a.arguments;
      if args == "" {
        args := "{}";
      }
      CallsAtNext(fragments, indices[..k], indices[k]);
      PrefixNext(indices, k);
      calls := calls + [ToolCall(a.id, a.name, args)];
    }
    WholePrefix(indices);
  }
}
