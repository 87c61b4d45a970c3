/** What is read from a Gemini stream, position by position: every text, the last call, finish reason and usage. */
module GeminiStreams {
  import opened Chat
  import opened Collections
  import opened Provider
  import opened GeminiReader

  /** The place of a part: in which payload, and which of the parts of its first candidate. */
  datatype Spot = Spot(item: nat, part: nat) {
    predicate Before(other: Spot) { item < other.item || (item == other.item && part < other.part) }
  }

  /** There is a part at `p`. */
  predicate Has(items: seq<Item>, p: Spot) {
    && p.item < |items| && items[p.item].Some? && items[p.item].value.candidates != []
    && p.part < |items[p.item].value.candidates[0].parts|
  }

  function At(items: seq<Item>, p: Spot): Part
    requires Has(items, p)
  {
    items[p.item].value.candidates[0].parts[p.part]
  }

  /** A part that is text: not empty, and without a call. */
  predicate Text(part: Part) {
    part.text != "" && part.call.None?
  }

  /** `at` lists, in order, the places of all texts in `items`. */
  ghost predicate TextSpots(items: seq<Item>, at: seq<Spot>) {
    && (forall i, j :: 0 <= i < j < |at| ==> at[i].Before(at[j]))
    && (forall p :: p in at <==> Has(items, p) && Text(At(items, p)))
  }

  // ---- texts ----------------------------------------------------------------------------------

  ghost predicate TextsAt(parts: seq<Part>, at: seq<nat>, texts: seq<string>) {
    |texts| == |at| && forall i :: 0 <= i < |at| ==> at[i] < |parts| && texts[i] == parts[at[i]].text
  }

  lemma {:induction false} TextsAtNext(parts: seq<Part>, part: Part, at: seq<nat>, texts: seq<string>)
    requires TextsAt(parts, at, texts)
    ensures TextsAt(parts + [part], at, texts)
    ensures TextsAt(parts + [part], at + [|parts|], texts + [part.text])
  {
  }

  /** The positions of the texts in one candidate's parts. */
  lemma {:induction false} TextPositions(parts: seq<Part>) returns (at: seq<nat>)
    ensures Ascends(at)
    ensures forall k: nat :: k in at <==> k < |parts| && Text(parts[k])
    ensures TextsAt(parts, at, PartTexts(parts))
  {
    if parts == [] {
      at := [];
    } else {
      var n := |parts| - 1;
      at := TextPositions(parts[..n]);
      assert parts[..n] + [parts[n]] == parts;
      TextsAtNext(parts[..n], parts[n], at, PartTexts(parts[..n]));
      if Text(parts[n]) {
        AscendsNext(at, n);
        at := at + [n];
      }
    }
  }

  lemma {:induction false} PartTextsAppend(a: seq<Part>, b: seq<Part>)
    ensures PartTexts(a + b) == PartTexts(a) + PartTexts(b)
    decreases |b|
  {
    if b == [] {
      PlusNothing(a);
    } else {
      assert (a + b)[..|a + b| - 1] == a + b[..|b| - 1];
      PartTextsAppend(a, b[..|b| - 1]);
    }
  }

  function SpotsIn(item: nat, at: seq<nat>): seq<Spot> {
    seq(|at|, i requires 0 <= i < |at| => Spot(item, at[i]))
  }

  /** The parts of one payload. */
  function PartsIn(item: Item): seq<Part> {
    if item.Some? && item.value.candidates != [] then item.value.candidates[0].parts else []
  }

  lemma {:induction false} PartsOfNext(items: seq<Item>, item: Item)
    ensures PartsOf(items + [item]) == PartsOf(items) + PartsIn(item)
  {
    assert (items + [item])[..|items|] == items;
  }

  lemma {:induction false} SpotsNext(items: seq<Item>, item: Item, at: seq<Spot>, more: seq<nat>)
    requires TextSpots(items, at)
    requires Ascends(more)
    requires forall k: nat :: k in more <==> k < |PartsIn(item)| && Text(PartsIn(item)[k])
    ensures TextSpots(items + [item], at + SpotsIn(|items|, more))
  {
    var n, after, all := |items|, SpotsIn(|items|, more), items + [item];
    forall p: Spot
      ensures p in at + after <==> Has(all, p) && Text(At(all, p))
    {
      if p.item == n && p.part in more {
        var i :| 0 <= i < |more| && more[i] == p.part;
        assert after[i] == p;
      }
      assert p.item < n ==> (Has(all, p) <==> Has(items, p));
    }
    assert forall i :: 0 <= i < |at| ==> at[i] in at && at[i].item < n;
  }

  /** The texts are those at these places. */
  ghost predicate Reads(items: seq<Item>, at: seq<Spot>, texts: seq<string>) {
    |texts| == |at| && forall i :: 0 <= i < |at| ==> Has(items, at[i]) && texts[i] == At(items, at[i]).text
  }

  lemma {:induction false} ReadsNext(items: seq<Item>, item: Item, at: seq<Spot>, texts: seq<string>, more: seq<nat>,
                                     news: seq<string>)
    requires Reads(items, at, texts) && TextsAt(PartsIn(item), more, news)
    ensures Reads(items + [item], at + SpotsIn(|items|, more), texts + news)
  {
    var all, spots, after := items + [item], at + SpotsIn(|items|, more), SpotsIn(|items|, more);
    forall i | 0 <= i < |spots|
      ensures Has(all, spots[i]) && (texts + news)[i] == At(all, spots[i]).text
    {
      if i < |at| {
        assert Has(items, at[i]);
      } else {
        assert spots[i] == after[i - |at|] == Spot(|items|, more[i - |at|]);
      }
    }
  }

  /** The texts collected from the payloads are those at the text spots. */
  lemma {:induction false} TextsAre(items: seq<Item>) returns (at: seq<Spot>)
    ensures TextSpots(items, at) && Reads(items, at, PartTexts(PartsOf(items)))
  {
    if items == [] {
      at := [];
    } else {
      var n, item := |items| - 1, items[|items| - 1];
      var before := TextsAre(items[..n]);
      var more := TextPositions(PartsIn(item));
      assert items == items[..n] + [item];
      PartsOfNext(items[..n], item);
      PartTextsAppend(PartsOf(items[..n]), PartsIn(item));
      SpotsNext(items[..n], item, before, more);
      ReadsNext(items[..n], item, before, PartTexts(PartsOf(items[..n])), more, PartTexts(PartsIn(item)));
      at := before + SpotsIn(n, more);
    }
  }

  // ---- the last call, finish reason and usage -------------------------------------------------

  /** No part has a call. */
  ghost predicate NoCall(items: seq<Item>) {
    forall p :: Has(items, p) ==> At(items, p).call.None?
  }

  /** The part at `p` has a call, and none after it does. */
  ghost predicate LastCallAt(items: seq<Item>, p: Spot) {
    && Has(items, p) && At(items, p).call.Some?
    && forall q :: Has(items, q) && p.Before(q) ==> At(items, q).call.None?
  }

  lemma {:induction false} NoPartCalls(parts: seq<Part>)
    requires forall part :: part in parts ==> part.call.None?
    ensures PartCalls(parts) == []
  {
    if parts == [] {
    } else {
      NoPartCalls(parts[..|parts| - 1]);
    }
  }

  lemma {:induction false} PartCallsAppend(a: seq<Part>, b: seq<Part>)
    ensures PartCalls(a + b) == PartCalls(a) + PartCalls(b)
    decreases |b|
  {
    if b == [] {
      PlusNothing(a);
    } else {
      assert (a + b)[..|a + b| - 1] == a + b[..|b| - 1];
      PartCallsAppend(a, b[..|b| - 1]);
    }
  }

  lemma {:induction false} NoCallsAfter(items: seq<Item>, k: nat)
    requires k <= |items| && forall p :: Has(items, p) && k <= p.item ==> At(items, p).call.None?
    ensures PartCalls(PartsOf(items)) == PartCalls(PartsOf(items[..k]))
  {
    if k == |items| {
      WholePrefix(items);
    } else {
      var n, item := |items| - 1, items[|items| - 1];
      assert forall p :: Has(items[..n], p) ==> Has(items, p) && At(items[..n], p) == At(items, p);
      NoCallsAfter(items[..n], k);
      assert items == items[..n] + [item] && items[..n][..k] == items[..k];
      PartsOfNext(items[..n], item);
      forall part | part in PartsIn(item)
        ensures part.call.None?
      {
        var i :| 0 <= i < |PartsIn(item)| && PartsIn(item)[i] == part;
        assert Has(items, Spot(n, i));
      }
      NoPartCalls(PartsIn(item));
      PartCallsAppend(PartsOf(items[..n]), PartsIn(item));
      PlusNothing(PartCalls(PartsOf(items[..n])));
    }
  }

  lemma {:induction false} LastPartCall(parts: seq<Part>, i: nat)
    requires i < |parts| && parts[i].call.Some?
    requires forall j :: i < j < |parts| ==> parts[j].call.None?
    ensures var call := parts[i].call.value;
            LastOf(PartCalls(parts)) == Some(ToolCall("", call.name, call.arguments))
  {
    if i == |parts| - 1 {
    } else {
      LastPartCall(parts[..|parts| - 1], i);
      PlusNothing(PartCalls(parts[..|parts| - 1]));
    }
  }

  lemma {:induction false} LastCallIs(items: seq<Item>, p: Spot)
    requires LastCallAt(items, p)
    ensures var call := At(items, p).call.value;
            LastOf(PartCalls(PartsOf(items))) == Some(ToolCall("", call.name, call.arguments))
  {
    var k, parts := p.item, items[p.item].value.candidates[0].parts;
    NoCallsAfter(items, k + 1);
    CallsUpTo(items, k);
    forall j | p.part < j < |parts|
      ensures parts[j].call.None?
    {
      assert At(items, Spot(k, j)) == parts[j];
    }
    LastPartCall(parts, p.part);
    LastOfBoth(PartCalls(PartsOf(items[..k])), PartCalls(parts));
  }

  lemma {:induction false} LastOfBoth(a: seq<ToolCall>, b: seq<ToolCall>)
    requires LastOf(b).Some?
    ensures LastOf(a + b) == LastOf(b)
  {
  }

  lemma {:induction false} CallsUpTo(items: seq<Item>, k: nat)
    requires k < |items|
    ensures PartCalls(PartsOf(items[..k + 1])) == PartCalls(PartsOf(items[..k])) + PartCalls(PartsIn(items[k]))
  {
    PrefixNext(items, k);
    PartsOfNext(items[..k], items[k]);
    PartCallsAppend(PartsOf(items[..k]), PartsIn(items[k]));
  }

  predicate Finishes(item: Item) {
    item.Some? && item.value.candidates != [] && item.value.candidates[0].finishReason != ""
  }

  /** The payload at `k` is the last whose first candidate names a finish reason; there is none if it is -1. */
  ghost predicate LastFinish(items: seq<Item>, k: int) {
    && -1 <= k < |items| && (k >= 0 ==> Finishes(items[k]))
    && forall i :: k < i < |items| ==> !Finishes(items[i])
  }

  predicate Counts(item: Item) {
    item.Some? && item.value.usage != Usage(0, 0, 0)
  }

  /** The payload at `k` is the last whose usage counts anything; there is none if it is -1. */
  ghost predicate LastUsage(items: seq<Item>, k: int) {
    && -1 <= k < |items| && (k >= 0 ==> Counts(items[k]))
    && forall i :: k < i < |items| ==> !Counts(items[i])
  }

  lemma {:induction false} FinishIs(items: seq<Item>, k: int)
    requires LastFinish(items, k)
    ensures FinishOf(items) == if k < 0 then "" else FinishReason(items[k].value.candidates[0].finishReason)
  {
    if items == [] || k == |items| - 1 {
    } else {
      FinishIs(items[..|items| - 1], k);
      assert !Finishes(items[|items| - 1]);
    }
  }

  lemma {:induction false} UsageIs(items: seq<Item>, k: int)
    requires LastUsage(items, k)
    ensures UsageOf(items) == if k < 0 then None else Some(items[k].value.usage)
  {
    if items == [] || k == |items| - 1 {
    } else {
      UsageIs(items[..|items| - 1], k);
      assert !Counts(items[|items| - 1]);
    }
  }

  // ---- whole streams --------------------------------------------------------------------------

  /** The first `b` payloads decode, and the next one, if there is one, does not. */
  ghost predicate DecodeUpTo(items: seq<Item>, b: nat) {
    b <= |items| && (forall i :: 0 <= i < b ==> items[i].Some?) && (b < |items| ==> items[b].None?)
  }

  /**
   * What is emitted before the closing chunk: exactly the texts among the payloads before the first malformed one, in
   * order. A stream that breaks off, at a malformed payload or because the scanner fails, is closed by an error chunk,
   * and is an error instead if it has no text.
   */
  lemma {:induction false} TextsAreEmitted(items: seq<Item>, b: nat, scanFailed: bool) returns (at: seq<Spot>)
    requires DecodeUpTo(items, b)
    ensures TextSpots(items[..b], at)
    ensures var r, broken := Consume(items, scanFailed), b < |items| || scanFailed;
            && (r.failed <==> broken && at == [])
            && (r.failed ==> r.emitted == [])
            && (!r.failed ==>
                  && |r.emitted| == |at| + 1
                  && (forall i :: 0 <= i < |at| ==>
                        r.emitted[i] == StreamDelta(At(items[..b], at[i]).text, "", None, [], ""))
                  && (broken ==> r.emitted[|at|] == StreamDelta("", "error", None, [], "")))
  {
    LengthIs(items, b);
    at := TextsAre(items[..b]);
    TextDeltasHaveNoFinish(PartTexts(PartsOf(items[..b])));
    WholePrefix(items);
  }

  /**
   * How a stream without a call is closed, if it does not break off: by the last usage that counts anything, and by the
   * last finish reason, translated.
   */
  lemma {:induction false} ClosesWithFinish(items: seq<Item>, k: int, u: int)
    requires DecodeUpTo(items, |items|) && NoCall(items) && LastFinish(items, k) && LastUsage(items, u)
    ensures var r := Consume(items, false);
            && !r.failed && r.emitted != []
            && var last := r.emitted[|r.emitted| - 1];
               && last.delta == "" && last.toolCalls == [] && last.reasoning == ""
               && last.usage == (if u < 0 then None else Some(items[u].value.usage))
               && (k < 0 ==> last.finishReason == "")
               && (k >= 0 ==>
                     var f := items[k].value.candidates[0].finishReason;
                     && (f == "STOP" ==> last.finishReason == "stop")
                     && (f == "MAX_TOKENS" ==> last.finishReason == "length")
                     && (f == "SAFETY" || f == "RECITATION" ==> last.finishReason == "content_filter")
                     && (f == "OTHER" ==> last.finishReason == "other")
                     && (f !in {"STOP", "MAX_TOKENS", "SAFETY", "RECITATION", "OTHER"} ==> last.finishReason == f))
  {
    LengthIs(items, |items|);
    NoCallsAfter(items, 0);
    FinishIs(items, k);
    UsageIs(items, u);
  }

  /** With a call it is closed by the last one, whatever else it said. */
  lemma {:induction false} ClosesWithCall(items: seq<Item>, p: Spot)
    requires DecodeUpTo(items, |items|) && LastCallAt(items, p)
    ensures var r, call := Consume(items, false), At(items, p).call.value;
            && !r.failed && r.emitted != []
            && r.emitted[|r.emitted| - 1] ==
               StreamDelta("", "tool_calls", None, [ToolCall("", call.name, call.arguments)], "")
  {
    LengthIs(items, |items|);
    LastCallIs(items, p);
  }

  /** Only a line that begins with `data: `, blank included, is a payload; the rest of the line is all of it. */
  lemma {:induction false} LinesArePayloads(lines: seq<string>, line: string, decode: string -> Option<Chunk>)
    ensures forall text :: line == "data: " + text ==>
              Items(lines + [line], decode) == Items(lines, decode) + [decode(text)]
    ensures (forall text :: line != "data: " + text) ==> Items(lines + [line], decode) == Items(lines, decode)
  {
    LinesNext(lines, line, decode);
    if PayloadOf(line).Some? {
      assert line == "data: " + line[6..];
    }
    forall text | line == "data: " + text
      ensures line[6..] == text
    {
    }
  }
}
