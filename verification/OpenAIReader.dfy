/**
 * Reading an OpenAI chunk stream into canonical chunks.
 *
 * `Consume` says what a stream means as a whole: everything up to the first payload that ends it. The stream state
 * that the adapter updates line by line computes the same.
 */
module OpenAIReader {
  import opened Chat
  import opened Collections
  import opened Provider
  import opened EventStream
  import opened ToolCallFragments

  /** Decoded payloads. A finish reason or role that is absent is the empty string, an absent index is 0. */
  datatype Choice = Choice(
    role: string,
    content: string,
    fragments: seq<Fragment>,
    reasoning: string,
    finishReason: string)

  datatype Chunk = Chunk(choices: seq<Choice>, usage: Option<Usage>)

  datatype Item = Done | Malformed | Good(chunk: Chunk)

  // ---- lines and payloads ---------------------------------------------------------------------

  /** The payload of a data line; None for other lines and for empty payloads. */
  function PayloadOf(line: string): Option<string> {
    if !("data:" <= line) then None
    else
      var payload := Trim(line[5..]);
      if payload == "" then None else Some(payload)
  }

  function ItemOf(payload: string, decode: string -> Option<Chunk>): Item {
    if payload == "[DONE]" then Done
    else
      var chunk := decode(payload);
      if chunk.Some? then Good(chunk.value) else Malformed
  }

  function Items(lines: seq<string>, decode: string -> Option<Chunk>): seq<Item> {
    if lines == [] then []
    else
      var payload := PayloadOf(lines[|lines| - 1]);
      Items(lines[..|lines| - 1], decode) + if payload.Some? then [ItemOf(payload.value, decode)] else []
  }

  // ---- what a stream means --------------------------------------------------------------------

  /** Only the first choice counts. */
  function First(c: Chunk): Choice {
    if c.choices == [] then Choice("", "", [], "", "") else c.choices[0]
  }

  /** A payload that does not end the stream. */
  predicate Continues(item: Item) {
    item.Good? && First(item.chunk).finishReason == ""
  }

  /** How many payloads are read before the one that ends the stream. */
  function Length(items: seq<Item>): (k: nat)
    ensures k <= |items|
    ensures forall i :: 0 <= i < k ==> Continues(items[i])
    ensures k < |items| ==> !Continues(items[k])
  {
    if items == [] || !Continues(items[0]) then 0 else 1 + Length(items[1..])
  }

  function ContentOf(items: seq<Item>): seq<string> {
    if items == [] then []
    else
      var last := items[|items| - 1];
      var text := if last.Good? then First(last.chunk).content else "";
      ContentOf(items[..|items| - 1]) + if text == "" then [] else [text]
  }

  function FragmentsOf(items: seq<Item>): seq<Fragment> {
    if items == [] then []
    else
      var last := items[|items| - 1];
      FragmentsOf(items[..|items| - 1]) + if last.Good? then First(last.chunk).fragments else []
  }

  function ReasoningOf(items: seq<Item>): string {
    if items == [] then ""
    else
      var last := items[|items| - 1];
      ReasoningOf(items[..|items| - 1]) + if last.Good? then First(last.chunk).reasoning else ""
  }

  /** The closing chunk after `items`. */
  ghost function Final(finish: string, usage: Option<Usage>, items: seq<Item>): StreamDelta {
    StreamDelta("", finish, usage, Calls(FragmentsOf(items)), ReasoningOf(items))
  }

  /** A break after `items`: an error chunk if text was delivered, an error otherwise. */
  function Broken(items: seq<Item>): Reading {
    var texts := ContentOf(items);
    if texts == [] then Reading([], true) else Reading(TextDeltas(texts) + [ERROR_DELTA], false)
  }

  /** A stream ended by the payload `item` after `body`. */
  ghost function Ended(body: seq<Item>, item: Item): Reading {
    match item
    case Done =>
      var pending := if FragmentsOf(body) == [] then [] else [Final("stop", None, body)];
      Reading(TextDeltas(ContentOf(body)) + pending, false)
    case Malformed => Broken(body)
    case Good(chunk) =>
      var all := body + [item];
      Reading(TextDeltas(ContentOf(all)) + [Final(First(chunk).finishReason, chunk.usage, all)], false)
  }

  /** A stream that runs out without a payload that ends it. */
  ghost function RanOut(items: seq<Item>, scanFailed: bool): Reading {
    if scanFailed then Broken(items)
    else if ContentOf(items) == [] && FragmentsOf(items) == [] then Reading([], true)
    else Reading(TextDeltas(ContentOf(items)) + [Final("stop", None, items)], false)
  }

  /** The whole stream, given its payloads and whether the scanner failed in the end. */
  ghost function Consume(items: seq<Item>, scanFailed: bool): Reading {
    var k := Length(items);
    if k < |items| then Ended(items[..k], items[k]) else RanOut(items, scanFailed)
  }

  ghost predicate Going(items: seq<Item>) {
    forall i :: 0 <= i < |items| ==> Continues(items[i])
  }

  lemma {:induction false} GoingNext(items: seq<Item>, item: Item)
    requires Going(items)
    ensures Continues(item) ==> Going(items + [item])
    ensures !Continues(item) ==> Length(items + [item]) < |items + [item]|
  {
    LengthNext(items, item);
  }

  /** What a payload adds, if it is a chunk. */
  function FirstOf(item: Item): Choice {
    if item.Good? then First(item.chunk) else Choice("", "", [], "", "")
  }

  lemma {:induction false} ItemsNext(items: seq<Item>, item: Item)
    ensures var text := FirstOf(item).content;
            && ContentOf(items + [item]) == ContentOf(items) + (if text == "" then [] else [text])
            && TextDeltas(ContentOf(items + [item])) ==
               TextDeltas(ContentOf(items)) + (if text == "" then [] else [TextDelta(text)])
    ensures FragmentsOf(items + [item]) == FragmentsOf(items) + FirstOf(item).fragments
    ensures ReasoningOf(items + [item]) == ReasoningOf(items) + FirstOf(item).reasoning
  {
    assert (items + [item])[..|items|] == items;
    var texts, text := ContentOf(items), FirstOf(item).content;
    if text == "" {
      assert texts + [] == texts;
    } else {
      assert (texts + [text])[..|texts|] == texts;
    }
  }

  lemma {:induction false} NoChoice(items: seq<Item>, chunk: Chunk)
    requires chunk.choices == []
    ensures var next := items + [Good(chunk)];
            && ContentOf(next) == ContentOf(items) && FragmentsOf(next) == FragmentsOf(items)
            && ReasoningOf(next) == ReasoningOf(items)
  {
    assert (items + [Good(chunk)])[..|items|] == items;
  }

  lemma {:induction false} HoldsNothing(acc: map<int, Accum>, fragments: seq<Fragment>)
    requires Holds(acc, fragments)
    ensures |acc| == 0 <==> fragments == []
  {
    if fragments != [] {
      assert fragments[0].index in Indices(fragments);
    }
  }

  lemma {:induction false} LengthIs(items: seq<Item>, k: nat)
    requires k <= |items| && (forall i :: 0 <= i < k ==> Continues(items[i]))
    requires k < |items| ==> !Continues(items[k])
    ensures Length(items) == k
  {
    if k == 0 {
    } else {
      LengthIs(items[1..], k - 1);
    }
  }

  lemma {:induction false} LengthNext(items: seq<Item>, item: Item)
    requires Going(items)
    ensures Length(items + [item]) == if Continues(item) then |items| + 1 else |items|
    ensures (items + [item])[..|items|] == items
  {
    LengthIs(items + [item], if Continues(item) then |items| + 1 else |items|);
  }

  lemma {:induction false} AllContinue(items: seq<Item>)
    requires Going(items)
    ensures Length(items) == |items|
  {
    LengthIs(items, |items|);
  }

  lemma {:induction false} LinesNext(lines: seq<string>, line: string, decode: string -> Option<Chunk>)
    ensures Items(lines + [line], decode) ==
            if PayloadOf(line).None? then Items(lines, decode)
            else Items(lines, decode) + [ItemOf(PayloadOf(line).value, decode)]
  {
    assert (lines + [line])[..|lines|] == lines;
    assert Items(lines, decode) + [] == Items(lines, decode);
  }

  lemma {:induction false} ItemsAppend(a: seq<string>, b: seq<string>, decode: string -> Option<Chunk>)
    ensures Items(a + b, decode) == Items(a, decode) + Items(b, decode)
    decreases |b|
  {
    if b == [] {
      assert a + b == a;
    } else {
      assert (a + b)[..|a + b| - 1] == a + b[..|b| - 1];
      ItemsAppend(a, b[..|b| - 1], decode);
    }
  }

  /** What follows the payload that ended the stream, a scanner failure included, changes nothing. */
  lemma {:induction false} EndIsFinal(items: seq<Item>, rest: seq<Item>, scanFailed: bool)
    requires Length(items) < |items|
    ensures Consume(items + rest, scanFailed) == Consume(items, false)
  {
    var k := Length(items);
    LengthIs(items + rest, k);
    assert (items + rest)[..k] == items[..k];
  }

  lemma {:induction false} RestIsIgnored(lines: seq<string>, i: nat, decode: string -> Option<Chunk>, scanFailed: bool)
    requires i < |lines| && Length(Items(lines[..i + 1], decode)) < |Items(lines[..i + 1], decode)|
    ensures Consume(Items(lines, decode), scanFailed) == Consume(Items(lines[..i + 1], decode), false)
  {
    assert lines == lines[..i + 1] + lines[i + 1..];
    ItemsAppend(lines[..i + 1], lines[i + 1..], decode);
    EndIsFinal(Items(lines[..i + 1], decode), Items(lines[i + 1..], decode), scanFailed);
  }

  // ---- the stream state -----------------------------------------------------------------------

  class StreamState {
    var delivered: bool
    var acc: map<int, Accum>
    var reasoning: string
    var emitted: seq<StreamDelta>

    /** The state after reading `items`, none of which ended the stream. */
    ghost predicate Read(items: seq<Item>)
      reads this
    {
      && Holds(acc, FragmentsOf(items))
      && reasoning == ReasoningOf(items)
      && emitted == TextDeltas(ContentOf(items))
      && delivered == (ContentOf(items) != [])
    }

    constructor ()
      ensures Read([]) && emitted == []
    {
      delivered, acc, reasoning, emitted := false, map[], "", [];
    }

    method EmitContent(choice: Choice)
      modifies this`delivered, this`emitted
      ensures delivered == (old(delivered) || choice.content != "")
      ensures emitted == old(emitted) + if choice.content == "" then [] else [TextDelta(choice.content)]
    {
      if choice.content == "" {
        return;
      }
      delivered := true;
      emitted := emitted + [TextDelta(choice.content)];
    }

    method AccumulateToolCall(f: Fragment)
      modifies this`acc
      ensures acc == Add(old(acc), f)
    {
      var a := if f.index in acc then acc[f.index] else Accum("", "", "");
      ghost var before := a;
      if f.id != "" {
        a := a.(id := f.id);
      }
      if f.name != "" {
        a := a.(name := f.name);
      }
      if f.arguments != "" {
        a := a.(arguments := a.arguments + f.arguments);
      }
      assert before.arguments + "" == before.arguments;
      acc := acc[f.index := a];
    }

    method AccumulateToolCalls(choice: Choice, ghost before: seq<Fragment>)
      requires Holds(acc, before)
      modifies this`acc
      ensures Holds(acc, before + choice.fragments)
    {
      assert before + choice.fragments[..0] == before;
      for i := 0 to |choice.fragments|
        invariant Holds(acc, before + choice.fragments[..i])
      {
        AddHolds(acc, before + choice.fragments[..i], choice.fragments[i]);
        PrefixNext(choice.fragments, i);
        Regroup(before, choice.fragments[..i], [choice.fragments[i]]);
        AccumulateToolCall(choice.fragments[i]);
      }
      WholePrefix(choice.fragments);
    }

    /** Emits the closing chunk. */
    method Finish(finish: string, usage: Option<Usage>, ghost items: seq<Item>)
      requires Holds(acc, FragmentsOf(items)) && reasoning == ReasoningOf(items)
      modifies this`emitted
      ensures emitted == old(emitted) + [Final(finish, usage, items)]
    {
      var calls := BuildCalls(acc, FragmentsOf(items));
      emitted := emitted + [StreamDelta("", finish, usage, calls, reasoning)];
    }

    /** Emits a choice's text and accumulates the rest of it. */
    method Fold(choice: Choice, ghost chunk: Chunk, ghost items: seq<Item>)
      requires Read(items) && First(chunk) == choice
      modifies this
      ensures Read(items + [Good(chunk)])
    {
      ItemsNext(items, Good(chunk));
      EmitContent(choice);
      reasoning := reasoning + choice.reasoning;
      AccumulateToolCalls(choice, FragmentsOf(items));
    }

    /** Folds in the first choice of a chunk; `done` when its finish reason ended the stream. */
    method ApplyChoice(chunk: Chunk, ghost items: seq<Item>) returns (done: bool)
      requires Read(items)
      modifies this
      ensures done == !Continues(Good(chunk))
      ensures !done ==> Read(items + [Good(chunk)])
      ensures done ==>
                emitted == TextDeltas(ContentOf(items + [Good(chunk)]))
                           + [Final(First(chunk).finishReason, chunk.usage, items + [Good(chunk)])]
    {
      if |chunk.choices| == 0 {
        NoChoice(items, chunk);
        return false;
      }
      var choice := chunk.choices[0];
      Fold(choice, chunk, items);
      if choice.finishReason == "" {
        return false;
      }
      Finish(choice.finishReason, chunk.usage, items + [Good(chunk)]);
      return true;
    }

    method HandlePayload(payload: string, decode: string -> Option<Chunk>, ghost items: seq<Item>)
      returns (done: bool, failed: bool)
      requires Read(items)
      requires Going(items)
      modifies this
      ensures var item := ItemOf(payload, decode);
              && (!done && !failed <==> Continues(item))
              && (!done && !failed ==> Read(items + [item]))
              && (done || failed ==> Reading(emitted, failed) == Consume(items + [item], false))
    {
      LengthNext(items, ItemOf(payload, decode));
      if payload == "[DONE]" {
        HoldsNothing(acc, FragmentsOf(items));
        if |acc| > 0 {
          Finish("stop", None, items);
        }
        return true, false;
      }
      var chunk := decode(payload);
      if chunk.None? {
        if !delivered {
          return false, true;
        }
        emitted := emitted + [ERROR_DELTA];
        return true, false;
      }
      done := ApplyChoice(chunk.value, items);
      failed := false;
    }

    method HandleScanError(ghost items: seq<Item>) returns (failed: bool)
      requires Read(items)
      modifies this`emitted
      ensures Reading(emitted, failed) == RanOut(items, true)
    {
      if !delivered {
        return true;
      }
      emitted := emitted + [ERROR_DELTA];
      return false;
    }

    method FinishStream(ghost items: seq<Item>) returns (failed: bool)
      requires Read(items)
      modifies this`emitted
      ensures Reading(emitted, failed) == RanOut(items, false)
    {
      HoldsNothing(acc, FragmentsOf(items));
      if !delivered && |acc| == 0 {
        return true;
      }
      Finish("stop", None, items);
      return false;
    }

    /** The scan loop. */
    method ConsumeStream(lines: seq<string>, scanFailed: bool, decode: string -> Option<Chunk>) returns (failed: bool)
      requires Read([]) && emitted == []
      modifies this
      ensures Reading(emitted, failed) == Consume(Items(lines, decode), scanFailed)
    {
      ghost var items := [];
      for i := 0 to |lines|
        invariant items == Items(lines[..i], decode) && Read(items) && Going(items)
      {
        PrefixNext(lines, i);
        LinesNext(lines[..i], lines[i], decode);
        if !("data:" <= lines[i]) {
          continue;
        }
        var payload := Trim(lines[i][5..]);
        if payload == "" {
          continue;
        }
        var done;
        done, failed := HandlePayload(payload, decode, items);
        GoingNext(items, ItemOf(payload, decode));
        items := items + [ItemOf(payload, decode)];
        if done || failed {
          RestIsIgnored(lines, i, decode, scanFailed);
          return failed;
        }
      }
      WholePrefix(lines);
      AllContinue(items);
      if scanFailed {
        failed := HandleScanError(items);
      } else {
        failed := FinishStream(items);
      }
    }
  }

  // ---- how a stream is closed -----------------------------------------------------------------

  /** A chunk whose first choice, if it has one, names no finish reason. */
  predicate NamesNoFinish(item: Item) {
    item.Good? && (item.chunk.choices == [] || item.chunk.choices[0].finishReason == "")
  }

  /** The first payload that is anything else stands at `k`; there is none if that is the end. */
  ghost predicate EndsAt(items: seq<Item>, k: nat) {
    && k <= |items| && (forall i :: 0 <= i < k ==> NamesNoFinish(items[i]))
    && (k < |items| ==> !NamesNoFinish(items[k]))
  }

  /**
   * Every stream: what was read up to its end is emitted as texts, and a closing chunk with all calls and all
   * reasoning. A finish reason closes it with that and with the usage beside it; `[DONE]` with "stop", if there are
   * calls; running out with "stop", if there are calls or text, and with an error otherwise; a malformed payload or a
   * scanner failure with an error chunk after text, and with an error before.
   */
  lemma {:induction false} ClosesAs(items: seq<Item>, scanFailed: bool, k: nat)
    requires EndsAt(items, k)
    ensures var r := Consume(items, scanFailed);
            var read := if k < |items| && items[k].Good? then items[..k + 1] else items[..k];
            var texts, fragments := TextDeltas(ContentOf(read)), FragmentsOf(read);
            var stop := StreamDelta("", "stop", None, Calls(fragments), ReasoningOf(read));
            if k < |items| && items[k].Done? then
              r == Reading(if fragments == [] then texts else texts + [stop], false)
            else if k < |items| && items[k].Good? then
              var finish := items[k].chunk.choices[0].finishReason;
              r == Reading(texts + [stop.(finishReason := finish, usage := items[k].chunk.usage)], false)
            else if k < |items| || scanFailed then
              r == (if texts == [] then Reading([], true)
                    else Reading(texts + [StreamDelta("", "error", None, [], "")], false))
            else
              r == (if texts == [] && fragments == [] then Reading([], true) else Reading(texts + [stop], false))
  {
    LengthIs(items, k);
    TextDeltasHaveNoFinish(ContentOf(items[..k]));
    WholePrefix(items);
    if k < |items| {
      PrefixNext(items, k);
      PlusNothing(TextDeltas(ContentOf(items[..k])));
    }
  }

  /** A data line is a payload with or without a blank after its colon, unless it is blank; other lines are none. */
  lemma {:induction false} LinesArePayloads(lines: seq<string>, line: string, decode: string -> Option<Chunk>)
    ensures forall text :: line == "data:" + text ==>
              Items(lines + [line], decode) == Items(lines, decode)
                                               + if Trim(text) == "" then [] else [ItemOf(Trim(text), decode)]
    ensures (forall text :: line != "data:" + text) ==> Items(lines + [line], decode) == Items(lines, decode)
  {
    LinesNext(lines, line, decode);
    PlusNothing(Items(lines, decode));
    if "data:" <= line {
      assert line == "data:" + line[5..];
    }
    forall text | line == "data:" + text
      ensures line[5..] == text
    {
    }
  }

  /** `[DONE]` ends a stream, and is never decoded. */
  lemma {:induction false} PayloadsAre(payload: string, decode: string -> Option<Chunk>)
    ensures ItemOf(payload, decode).Done? <==> payload == "[DONE]"
    ensures payload != "[DONE]" ==>
              && (ItemOf(payload, decode).Malformed? <==> decode(payload) == None)
              && forall chunk :: decode(payload) == Some(chunk) ==> ItemOf(payload, decode) == Good(chunk)
  {
  }

  // ---- the provider contract ------------------------------------------------------------------

  /** A stream that goes on to `[DONE]` is read as nothing exactly when it held neither text nor calls. */
  lemma {:induction false} DoneIsSilent(items: seq<Item>, scanFailed: bool)
    requires Going(items)
    ensures Consume(items + [Done], scanFailed) == Reading([], false) <==>
            ContentOf(items) == [] && FragmentsOf(items) == []
  {
    LengthNext(items, Done);
    TextDeltasHaveNoFinish(ContentOf(items));
    assert Consume(items + [Done], scanFailed) == Ended(items, Done);
  }

  /** A stream of nothing but `[DONE]` is no error, and has no finish reason. */
  lemma {:induction false} FinishCanBeMissing(scanFailed: bool)
    ensures EndedIdle([Done]) && Consume([Done], scanFailed) == Reading([], false)
  {
  }

  /** The stream ended at `[DONE]` with no tool call pending. */
  ghost predicate EndedIdle(items: seq<Item>) {
    var k := Length(items);
    k < |items| && items[k].Done? && FragmentsOf(items[..k]) == []
  }

  /**
   * The provider contract: an error is returned only when nothing was emitted; otherwise only the last chunk can carry
   * a finish reason, and it does unless the stream ended at `[DONE]` with no tool call pending.
   */
  lemma {:induction false} ProviderContract(items: seq<Item>, scanFailed: bool)
    ensures var r := Consume(items, scanFailed);
            && (r.failed ==> r.emitted == [])
            && OneFinish(r.emitted)
            && (!r.failed ==> (HasFinish(r.emitted) <==> !EndedIdle(items)))
  {
    var k := Length(items);
    var body := items[..k];
    TextsThen(ContentOf(body), ERROR_DELTA);
    TextsThen(ContentOf(items), ERROR_DELTA);
    if k == |items| {
      TextsThen(ContentOf(items), Final("stop", None, items));
    } else if items[k].Done? {
      TextsThen(ContentOf(body), Final("stop", None, body));
      assert TextDeltas(ContentOf(body)) + [] == TextDeltas(ContentOf(body));
    } else if items[k].Good? {
      var all, chunk := body + [items[k]], items[k].chunk;
      TextsThen(ContentOf(all), Final(First(chunk).finishReason, chunk.usage, all));
    }
  }
}
