/**
 * Cutting a complete message into stream chunks. A plan says how much of each part every chunk takes; whatever the
 * plan, the chunks are a stream of the message.
 */
module MessageCuts {
  import opened Chat
  import opened Collections
  import opened Capture
  import opened ToolCallFragments
  import opened OpenAIReader
  import opened OpenAIComplete

  /** The next `length` characters of a call's arguments, with or without its id and name. */
  datatype Piece = Piece(index: nat, named: bool, length: nat)

  /** One chunk: the next characters of the text and of the reasoning, and any number of pieces of calls. */
  datatype Slice = Slice(text: nat, reasoning: nat, pieces: seq<Piece>)

  // ---- cutting --------------------------------------------------------------------------------

  /** How much of the arguments of call `i` the pieces take. */
  function Taken(pieces: seq<Piece>, i: nat): nat {
    if pieces == [] then 0
    else
      var last := pieces[|pieces| - 1];
      Taken(pieces[..|pieces| - 1], i) + if last.index == i then last.length else 0
  }

  function TextTaken(plan: seq<Slice>): nat {
    if plan == [] then 0 else TextTaken(plan[..|plan| - 1]) + plan[|plan| - 1].text
  }

  function ReasoningTaken(plan: seq<Slice>): nat {
    if plan == [] then 0 else ReasoningTaken(plan[..|plan| - 1]) + plan[|plan| - 1].reasoning
  }

  function PiecesOf(plan: seq<Slice>): seq<Piece> {
    if plan == [] then [] else PiecesOf(plan[..|plan| - 1]) + plan[|plan| - 1].pieces
  }

  /** At most `n` characters from `from` on. */
  function Clip(s: string, from: nat, n: nat): string {
    if from + n <= |s| then s[from..from + n] else if from <= |s| then s[from..] else ""
  }

  function Spell(m: WireMessage, before: seq<Piece>, p: Piece): Fragment {
    if p.index >= |m.toolCalls| then Fragment(p.index, "", "", "")
    else
      var call := m.toolCalls[p.index];
      Fragment(p.index, if p.named then call.id else "", if p.named then call.name else "",
               Clip(call.arguments, Taken(before, p.index), p.length))
  }

  function SpellAll(m: WireMessage, before: seq<Piece>, pieces: seq<Piece>): seq<Fragment> {
    if pieces == [] then []
    else
      var init := pieces[..|pieces| - 1];
      SpellAll(m, before, init) + [Spell(m, before + init, pieces[|pieces| - 1])]
  }

  /** The chunk a slice becomes after the slices before it. */
  function ChunkFor(m: WireMessage, before: seq<Slice>, slice: Slice, finish: string, usage: Option<Usage>): Chunk {
    Chunk([Choice("", Clip(m.content, TextTaken(before), slice.text), SpellAll(m, PiecesOf(before), slice.pieces),
                  Clip(m.reasoning, ReasoningTaken(before), slice.reasoning), finish)], usage)
  }

  /** The chunks of a message; the last one carries the finish reason and the usage. */
  function Cut(m: WireMessage, plan: seq<Slice>, finish: string, usage: Option<Usage>): seq<Chunk> {
    if plan == [] then []
    else
      var before, slice := plan[..|plan| - 1], plan[|plan| - 1];
      Cut(m, before, "", None) + [ChunkFor(m, before, slice, finish, usage)]
  }

  /** Every part is taken to its end, and every call is named at least once. */
  ghost predicate Exhausts(m: WireMessage, plan: seq<Slice>) {
    && TextTaken(plan) >= |m.content| && ReasoningTaken(plan) >= |m.reasoning|
    && (forall p :: p in PiecesOf(plan) ==> p.index < |m.toolCalls|)
    && (forall i: nat :: i < |m.toolCalls| ==>
          Taken(PiecesOf(plan), i) >= |m.toolCalls[i].arguments| && NamedIn(PiecesOf(plan), i))
  }

  predicate NamedIn(pieces: seq<Piece>, i: nat) {
    exists p :: p in pieces && p.index == i && p.named
  }

  // ---- every cut is a stream of the message ---------------------------------------------------

  lemma {:induction false} ClipNext(s: string, from: nat, n: nat)
    ensures Clip(s, 0, from) + Clip(s, from, n) == Clip(s, 0, from + n)
  {
  }

  lemma {:induction false} ClipAll(s: string, n: nat)
    requires n >= |s|
    ensures Clip(s, 0, n) == s
  {
  }

  lemma {:induction false} ConcatNext(texts: seq<string>, text: string)
    ensures Concat(texts + if text == "" then [] else [text]) == Concat(texts) + text
  {
    if text == "" {
      PlusNothing(texts);
      PlusNothing(Concat(texts));
    } else {
      ConcatAppend(texts, [text]);
      assert [text][1..] == [];
      PlusNothing(text);
    }
  }

  lemma {:induction false} SpellAllAppend(m: WireMessage, a: seq<Piece>, b: seq<Piece>)
    ensures SpellAll(m, [], a + b) == SpellAll(m, [], a) + SpellAll(m, a, b)
    decreases |b|
  {
    if b == [] {
      PlusNothing(a);
      PlusNothing(SpellAll(m, [], a));
    } else {
      var init := b[..|b| - 1];
      assert (a + b)[..|a + b| - 1] == a + init && [] + (a + init) == a + init;
      SpellAllAppend(m, a, init);
    }
  }

  lemma {:induction false} CutNext(m: WireMessage, before: seq<Slice>, slice: Slice, finish: string,
                                   usage: Option<Usage>)
    ensures AllGood(Cut(m, before + [slice], finish, usage)) ==
            AllGood(Cut(m, before, "", None)) + [Good(ChunkFor(m, before, slice, finish, usage))]
  {
    var chunks, chunk := Cut(m, before, "", None), ChunkFor(m, before, slice, finish, usage);
    assert (before + [slice])[..|before|] == before;
    assert Cut(m, before + [slice], finish, usage) == chunks + [chunk];
    assert (chunks + [chunk])[..|chunks|] == chunks;
  }

  /** What the chunks hold so far. */
  ghost predicate CutHolds(m: WireMessage, plan: seq<Slice>, items: seq<Item>) {
    && Concat(ContentOf(items)) == Clip(m.content, 0, TextTaken(plan))
    && ReasoningOf(items) == Clip(m.reasoning, 0, ReasoningTaken(plan))
    && FragmentsOf(items) == SpellAll(m, [], PiecesOf(plan))
  }

  lemma {:induction false} SliceHolds(m: WireMessage, before: seq<Slice>, slice: Slice, finish: string,
                                      usage: Option<Usage>, items: seq<Item>)
    requires CutHolds(m, before, items)
    ensures CutHolds(m, before + [slice], items + [Good(ChunkFor(m, before, slice, finish, usage))])
  {
    assert (before + [slice])[..|before|] == before;
    ItemsNext(items, Good(ChunkFor(m, before, slice, finish, usage)));
    ConcatNext(ContentOf(items), Clip(m.content, TextTaken(before), slice.text));
    ClipNext(m.content, TextTaken(before), slice.text);
    ClipNext(m.reasoning, ReasoningTaken(before), slice.reasoning);
    SpellAllAppend(m, PiecesOf(before), slice.pieces);
  }

  lemma {:induction false} NothingHolds(m: WireMessage)
    ensures CutHolds(m, [], [])
  {
    assert Clip(m.content, 0, 0) == "" && Clip(m.reasoning, 0, 0) == "";
  }

  lemma {:induction false} PlanHolds(m: WireMessage, plan: seq<Slice>, finish: string, usage: Option<Usage>)
    ensures CutHolds(m, plan, AllGood(Cut(m, plan, finish, usage)))
  {
    if plan == [] {
      NothingHolds(m);
    } else {
      var before, slice := plan[..|plan| - 1], plan[|plan| - 1];
      var items := AllGood(Cut(m, before, "", None));
      PlanHolds(m, before, "", None);
      SliceHolds(m, before, slice, finish, usage, items);
      assert AllGood(Cut(m, plan, finish, usage)) == items + [Good(ChunkFor(m, before, slice, finish, usage))] by {
        assert plan == before + [slice];
        CutNext(m, before, slice, finish, usage);
      }
      assert plan == before + [slice];
    }
  }

  /** A call as far as it has been named and its arguments taken. */
  function Spelled(call: ToolCall, named: bool, taken: nat): Accum {
    Accum(if named then call.id else "", if named then call.name else "", Clip(call.arguments, 0, taken))
  }

  lemma {:induction false} SpelledNext(m: WireMessage, before: seq<Piece>, p: Piece, named: bool)
    requires p.index < |m.toolCalls|
    ensures var call, taken := m.toolCalls[p.index], Taken(before, p.index);
            Merge(Spelled(call, named, taken), Spell(m, before, p)) ==
            Spelled(call, named || p.named, taken + p.length)
  {
    ClipNext(m.toolCalls[p.index].arguments, Taken(before, p.index), p.length);
  }

  lemma {:induction false} NamedNext(pieces: seq<Piece>, p: Piece, i: nat)
    ensures NamedIn(pieces + [p], i) <==> NamedIn(pieces, i) || (p.index == i && p.named)
  {
    assert forall x :: x in pieces + [p] <==> x in pieces || x == p;
  }

  lemma {:induction false} PiecesNext(m: WireMessage, pieces: seq<Piece>, p: Piece, i: nat)
    ensures SpellAll(m, [], pieces + [p]) == SpellAll(m, [], pieces) + [Spell(m, pieces, p)]
    ensures Taken(pieces + [p], i) == Taken(pieces, i) + if p.index == i then p.length else 0
  {
    assert (pieces + [p])[..|pieces|] == pieces && [] + pieces == pieces;
  }

  lemma {:induction false} PieceHolds(m: WireMessage, pieces: seq<Piece>, p: Piece, i: nat)
    requires i < |m.toolCalls|
    requires Summary(At(SpellAll(m, [], pieces), i)) == Spelled(m.toolCalls[i], NamedIn(pieces, i), Taken(pieces, i))
    ensures var more := pieces + [p];
            Summary(At(SpellAll(m, [], more), i)) == Spelled(m.toolCalls[i], NamedIn(more, i), Taken(more, i))
  {
    PiecesNext(m, pieces, p, i);
    NamedNext(pieces, p, i);
    SummaryAtNext(SpellAll(m, [], pieces), Spell(m, pieces, p), i);
    if p.index == i {
      SpelledNext(m, pieces, p, NamedIn(pieces, i));
    }
  }

  /** What the pieces say about call `i`. */
  lemma {:induction false} PiecesHold(m: WireMessage, pieces: seq<Piece>, i: nat)
    requires i < |m.toolCalls|
    ensures Summary(At(SpellAll(m, [], pieces), i)) ==
            Spelled(m.toolCalls[i], NamedIn(pieces, i), Taken(pieces, i))
  {
    if pieces == [] {
      assert Clip(m.toolCalls[i].arguments, 0, 0) == "";
    } else {
      var before, p := pieces[..|pieces| - 1], pieces[|pieces| - 1];
      PiecesHold(m, before, i);
      PieceHolds(m, before, p, i);
      assert pieces == before + [p];
    }
  }

  lemma {:induction false} PieceIndices(m: WireMessage, before: seq<Piece>, pieces: seq<Piece>, i: int)
    ensures i in Indices(SpellAll(m, before, pieces)) <==> exists p :: p in pieces && p.index == i
  {
    if pieces == [] {
    } else {
      var init, p := pieces[..|pieces| - 1], pieces[|pieces| - 1];
      PieceIndices(m, before, init, i);
      AtNext(SpellAll(m, before, init), Spell(m, before + init, p), p.index);
      assert forall x :: x in pieces <==> x in init || x == p;
    }
  }

  lemma {:induction false} RangeElements(n: nat, i: int)
    ensures i in Elements(Range(n)) <==> 0 <= i < n
  {
    if n == 0 {
    } else {
      RangeElements(n - 1, i);
      ElementsAppend(Range(n - 1), n - 1);
    }
  }

  lemma {:induction false} AllIndices(m: WireMessage, plan: seq<Slice>)
    requires Exhausts(m, plan)
    ensures Indices(SpellAll(m, [], PiecesOf(plan))) == Elements(Range(|m.toolCalls|))
  {
    var pieces := PiecesOf(plan);
    forall i: int
      ensures i in Indices(SpellAll(m, [], pieces)) <==> i in Elements(Range(|m.toolCalls|))
    {
      PieceIndices(m, [], pieces, i);
      RangeElements(|m.toolCalls|, i);
      assert 0 <= i < |m.toolCalls| ==> NamedIn(pieces, i);
    }
  }

  lemma {:induction false} CallIsSpelled(m: WireMessage, plan: seq<Slice>, i: nat)
    requires Exhausts(m, plan) && i < |m.toolCalls|
    ensures Summary(At(SpellAll(m, [], PiecesOf(plan)), i)) ==
            Accum(m.toolCalls[i].id, m.toolCalls[i].name, m.toolCalls[i].arguments)
  {
    PiecesHold(m, PiecesOf(plan), i);
    ClipAll(m.toolCalls[i].arguments, Taken(PiecesOf(plan), i));
  }

  /** However a message is cut, the chunks carry it. */
  lemma {:induction false} EveryCutSplits(m: WireMessage, plan: seq<Slice>, finish: string, usage: Option<Usage>)
    requires Exhausts(m, plan)
    ensures Splits(Cut(m, plan, finish, usage), m)
  {
    PlanHolds(m, plan, finish, usage);
    ClipAll(m.content, TextTaken(plan));
    ClipAll(m.reasoning, ReasoningTaken(plan));
    AllIndices(m, plan);
    forall i | 0 <= i < |m.toolCalls|
      ensures Summary(At(SpellAll(m, [], PiecesOf(plan)), i)) ==
              Accum(m.toolCalls[i].id, m.toolCalls[i].name, m.toolCalls[i].arguments)
    {
      CallIsSpelled(m, plan, i);
    }
  }

  lemma {:induction false} CutCloses(m: WireMessage, plan: seq<Slice>, finish: string, usage: Option<Usage>)
    ensures var chunks := Cut(m, plan, finish, usage);
            && |chunks| == |plan|
            && (forall i :: 0 <= i < |chunks| - 1 ==> First(chunks[i]).finishReason == "")
            && (plan != [] ==>
                  First(chunks[|chunks| - 1]).finishReason == finish && chunks[|chunks| - 1].usage == usage)
  {
    if plan == [] {
    } else {
      CutCloses(m, plan[..|plan| - 1], "", None);
    }
  }

  /** So a message cut by any plan and streamed is the message completed at once. */
  lemma {:induction false} CutAgreesWithComplete(r: WireResponse, plan: seq<Slice>, rest: seq<Item>, scanFailed: bool)
    requires r.choices != [] && r.choices[0].finishReason != ""
    requires plan != [] && Exhausts(r.choices[0].message, plan)
    ensures var c := r.choices[0];
            var streamed := Consume(AllGood(Cut(c.message, plan, c.finishReason, Some(r.usage))) + rest, scanFailed);
            var complete := Completed(r);
            && !streamed.failed
            && Collapse(streamed.emitted) ==
               complete.(id := "", model := "", toolCalls := AllWithArguments(complete.toolCalls))
  {
    var c := r.choices[0];
    EveryCutSplits(c.message, plan, c.finishReason, Some(r.usage));
    CutCloses(c.message, plan, c.finishReason, Some(r.usage));
    StreamAgreesWithComplete(r, Cut(c.message, plan, c.finishReason, Some(r.usage)), rest, scanFailed);
  }
}
