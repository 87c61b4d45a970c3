/** Reading a Gemini chunk stream into canonical chunks. Without an end marker the closing chunk is made at the end. */
module GeminiReader {
  import opened Chat
  import opened Collections
  import opened Provider

  datatype FunctionCall = FunctionCall(name: string, arguments: string)

  datatype Part = Part(text: string, call: Option<FunctionCall>)

  datatype Candidate = Candidate(parts: seq<Part>, finishReason: string)

  datatype Chunk = Chunk(candidates: seq<Candidate>, usage: Usage)

  /** None stands for a payload that does not decode. */
  type Item = Option<Chunk>

  /** Only `data: ` with its blank counts, and the payload is not trimmed. */
  function PayloadOf(line: string): Option<string> {
    if "data: " <= line then Some(line[6..]) else None
  }

  function Items(lines: seq<string>, decode: string -> Option<Chunk>): seq<Item> {
    if lines == [] then []
    else
      var payload := PayloadOf(lines[|lines| - 1]);
      Items(lines[..|lines| - 1], decode) + if payload.Some? then [decode(payload.value)] else []
  }

  function FinishReason(finish: string): string {
    if finish == "STOP" then "stop"
    else if finish == "MAX_TOKENS" then "length"
    else if finish == "SAFETY" || finish == "RECITATION" then "content_filter"
    else if finish == "OTHER" then "other"
    else finish
  }

  // ---- what a stream means --------------------------------------------------------------------

  /** How many payloads precede the first malformed one. */
  function Length(items: seq<Item>): (k: nat)
    ensures k <= |items|
    ensures forall i :: 0 <= i < k ==> items[i].Some?
    ensures k < |items| ==> items[k].None?
  {
    if items == [] || items[0].None? then 0 else 1 + Length(items[1..])
  }

  /** Only the first candidate counts. */
  function First(c: Chunk): Candidate {
    if c.candidates == [] then Candidate([], "") else c.candidates[0]
  }

  /** The non-empty texts among the parts; the text of a part with a call is ignored. */
  function PartTexts(parts: seq<Part>): seq<string> {
    if parts == [] then []
    else
      var last := parts[|parts| - 1];
      PartTexts(parts[..|parts| - 1]) + if last.call.Some? || last.text == "" then [] else [last.text]
  }

  function PartCalls(parts: seq<Part>): seq<ToolCall> {
    if parts == [] then []
    else
      var last := parts[|parts| - 1];
      PartCalls(parts[..|parts| - 1])
      + if last.call.Some? then [ToolCall("", last.call.value.name, last.call.value.arguments)] else []
  }

  function PartsOf(items: seq<Item>): seq<Part> {
    if items == [] then []
    else
      var last := items[|items| - 1];
      PartsOf(items[..|items| - 1]) + if last.Some? then First(last.value).parts else []
  }

  /** The last finish reason given. */
  function FinishOf(items: seq<Item>): string {
    if items == [] then ""
    else
      var last := items[|items| - 1];
      if last.Some? && First(last.value).finishReason != "" then FinishReason(First(last.value).finishReason)
      else FinishOf(items[..|items| - 1])
  }

  /** The last usage that counts any token. */
  function UsageOf(items: seq<Item>): Option<Usage> {
    if items == [] then None
    else
      var last := items[|items| - 1];
      if last.Some? && last.value.usage != NO_USAGE then Some(last.value.usage)
      else UsageOf(items[..|items| - 1])
  }

  function LastOf(calls: seq<ToolCall>): Option<ToolCall> {
    if calls == [] then None else Some(calls[|calls| - 1])
  }

  /** The closing chunk: the last function call, or the accumulated finish reason and usage. */
  function Final(items: seq<Item>): StreamDelta {
    var call := LastOf(PartCalls(PartsOf(items)));
    if call.Some? then StreamDelta("", "tool_calls", None, [call.value], "")
    else StreamDelta("", FinishOf(items), UsageOf(items), [], "")
  }

  /** A break after `items`: an error chunk if text was delivered, an error otherwise. */
  function Broken(items: seq<Item>): Reading {
    var texts := PartTexts(PartsOf(items));
    if texts == [] then Reading([], true) else Reading(TextDeltas(texts) + [ERROR_DELTA], false)
  }

  /** A stream read to its end. */
  function RanOut(items: seq<Item>, scanFailed: bool): Reading {
    if scanFailed then Broken(items)
    else Reading(TextDeltas(PartTexts(PartsOf(items))) + [Final(items)], false)
  }

  /** The whole stream, given its payloads and whether the scanner failed in the end. */
  function Consume(items: seq<Item>, scanFailed: bool): Reading {
    var k := Length(items);
    if k < |items| then Broken(items[..k]) else RanOut(items, scanFailed)
  }

  lemma {:induction false} PartsNext(before: seq<Part>, part: Part)
    ensures var skip := part.call.Some? || part.text == "";
            && PartTexts(before + [part]) == (if skip then PartTexts(before) else PartTexts(before) + [part.text])
            && TextDeltas(PartTexts(before + [part])) ==
               (if skip then TextDeltas(PartTexts(before))
                else TextDeltas(PartTexts(before)) + [TextDelta(part.text)])
    ensures part.call.None? ==> PartCalls(before + [part]) == PartCalls(before)
    ensures part.call.Some? ==>
              LastOf(PartCalls(before + [part])) ==
              Some(ToolCall("", part.call.value.name, part.call.value.arguments))
  {
    assert (before + [part])[..|before|] == before;
    assert (PartTexts(before) + [part.text])[..|PartTexts(before)|] == PartTexts(before);
  }

  lemma {:induction false} LinesNext(lines: seq<string>, line: string, decode: string -> Option<Chunk>)
    ensures Items(lines + [line], decode) ==
            if PayloadOf(line).None? then Items(lines, decode)
            else Items(lines, decode) + [decode(PayloadOf(line).value)]
  {
    assert (lines + [line])[..|lines|] == lines;
    assert Items(lines, decode) + [] == Items(lines, decode);
  }

  lemma {:induction false} LengthIs(items: seq<Item>, k: nat)
    requires k <= |items| && (forall i :: 0 <= i < k ==> items[i].Some?) && (k < |items| ==> items[k].None?)
    ensures Length(items) == k
  {
    if k == 0 {
    } else {
      LengthIs(items[1..], k - 1);
    }
  }

  lemma {:induction false} LengthNext(items: seq<Item>, item: Item)
    requires Length(items) == |items|
    ensures Length(items + [item]) == |items| + if item.Some? then 1 else 0
  {
    LengthIs(items + [item], |items| + if item.Some? then 1 else 0);
  }

  lemma {:induction false} ItemsAppend(a: seq<string>, b: seq<string>, decode: string -> Option<Chunk>)
    ensures Items(a + b, decode) == Items(a, decode) + Items(b, decode)
    decreases |b|
  {
    if b == [] {
      assert a + b == a;
    } else {
      assert (a + b)[..|a + b| - 1] == a + b[..|b| - 1];
      ItemsAppend(a, b[..|b| - 1], decode);
    }
  }

  /** After a malformed payload nothing is read any more. */
  lemma {:induction false} RestIsIgnored(lines: seq<string>, i: nat, decode: string -> Option<Chunk>, scanFailed: bool)
    requires i < |lines| && Length(Items(lines[..i], decode)) == |Items(lines[..i], decode)|
    requires PayloadOf(lines[i]).Some? && decode(PayloadOf(lines[i]).value).None?
    ensures Consume(Items(lines, decode), scanFailed) == Broken(Items(lines[..i], decode))
  {
    var before := Items(lines[..i], decode);
    assert lines == lines[..i + 1] + lines[i + 1..];
    PrefixNext(lines, i);
    LinesNext(lines[..i], lines[i], decode);
    ItemsAppend(lines[..i + 1], lines[i + 1..], decode);
    var items := Items(lines, decode);
    assert items == before + [None] + Items(lines[i + 1..], decode);
    LengthIs(items, |before|);
    assert items[..|before|] == before;
  }

  // ---- the stream state -----------------------------------------------------------------------

  class StreamState {
    var delivered: bool
    var usage: Option<Usage>
    var finishReason: string
    var toolCall: Option<ToolCall>
    var emitted: seq<StreamDelta>

    /** The text and call side of the state after `parts`. */
    ghost predicate Holds(parts: seq<Part>)
      reads this
    {
      var texts, calls := PartTexts(parts), PartCalls(parts);
      && emitted == TextDeltas(texts) && delivered == (texts != [])
      && toolCall == LastOf(calls)
    }

    /** The state after reading `items`, all of them well formed. */
    ghost predicate Read(items: seq<Item>)
      reads this
    {
      Holds(PartsOf(items)) && finishReason == FinishOf(items) && usage == UsageOf(items)
    }

    constructor ()
      ensures Read([]) && emitted == []
    {
      delivered, usage, finishReason, toolCall, emitted := false, None, "", None, [];
    }

    method ApplyPart(part: Part, ghost before: seq<Part>)
      requires Holds(before)
      modifies this`delivered, this`toolCall, this`emitted
      ensures Holds(before + [part])
    {
      PartsNext(before, part);
      if part.call.Some? {
        toolCall := Some(ToolCall("", part.call.value.name, part.call.value.arguments));
        return;
      }
      if part.text == "" {
        return;
      }
      delivered := true;
      emitted := emitted + [TextDelta(part.text)];
    }

    method ApplyParts(parts: seq<Part>, ghost before: seq<Part>)
      requires Holds(before)
      modifies this`delivered, this`toolCall, this`emitted
      ensures Holds(before + parts)
    {
      assert before + parts[..0] == before;
      for i := 0 to |parts|
        invariant Holds(before + parts[..i])
      {
        PrefixNext(parts, i);
        Regroup(before, parts[..i], [parts[i]]);
        ApplyPart(parts[i], before + parts[..i]);
      }
      WholePrefix(parts);
    }

    method ApplyCandidate(chunk: Chunk, ghost items: seq<Item>)
      requires Read(items)
      modifies this`delivered, this`toolCall, this`emitted, this`finishReason
      ensures Holds(PartsOf(items + [Some(chunk)])) && finishReason == FinishOf(items + [Some(chunk)])
    {
      ghost var before := PartsOf(items);
      assert (items + [Some(chunk)])[..|items|] == items;
      if |chunk.candidates| == 0 {
        assert before + [] == before;
        return;
      }
      var c := chunk.candidates[0];
      ApplyParts(c.parts, before);
      if c.finishReason != "" {
        finishReason := FinishReason(c.finishReason);
      }
    }

    method ApplyUsage(chunk: Chunk)
      modifies this`usage
      ensures usage == if chunk.usage != NO_USAGE then Some(chunk.usage) else old(usage)
    {
      if chunk.usage.prompt != 0 || chunk.usage.completion != 0 || chunk.usage.total != 0 {
        usage := Some(chunk.usage);
      }
    }

    /** A malformed payload, or a scanner failure: an error chunk after content, an error before. */
    method Break(ghost items: seq<Item>) returns (failed: bool)
      requires Read(items)
      modifies this`emitted
      ensures Reading(emitted, failed) == Broken(items)
    {
      if delivered {
        emitted := emitted + [ERROR_DELTA];
        return false;
      }
      return true;
    }

    method EmitFinal(ghost items: seq<Item>)
      requires Read(items)
      modifies this`emitted
      ensures Reading(emitted, false) == RanOut(items, false)
    {
      if toolCall.Some? {
        emitted := emitted + [StreamDelta("", "tool_calls", None, [toolCall.value], "")];
      } else {
        emitted := emitted + [StreamDelta("", finishReason, usage, [], "")];
      }
    }

    /** Folds in one payload; `done` or `failed` when it does not decode, which ends the stream. */
    method HandlePayload(chunk: Item, ghost items: seq<Item>) returns (done: bool, failed: bool)
      requires Read(items)
      modifies this
      ensures done || failed <==> chunk.None?
      ensures chunk.Some? ==> Read(items + [chunk])
      ensures chunk.None? ==> Reading(emitted, failed) == Broken(items)
    {
      if chunk.None? {
        failed := Break(items);
        return !failed, failed;
      }
      assert (items + [chunk])[..|items|] == items;
      ApplyCandidate(chunk.value, items);
      ApplyUsage(chunk.value);
      return false, false;
    }

    /** The scan loop. */
    method ConsumeStream(lines: seq<string>, scanFailed: bool, decode: string -> Option<Chunk>) returns (failed: bool)
      requires Read([]) && emitted == []
      modifies this
      ensures Reading(emitted, failed) == Consume(Items(lines, decode), scanFailed)
    {
      ghost var items := [];
      assert lines[..0] == [];
      for i := 0 to |lines|
        invariant items == Items(lines[..i], decode) && Read(items) && Length(items) == |items|
      {
        PrefixNext(lines, i);
        LinesNext(lines[..i], lines[i], decode);
        if !("data: " <= lines[i]) {
          continue;
        }
        var chunk, done := decode(lines[i][6..]), false;
        LengthNext(items, chunk);
        done, failed := HandlePayload(chunk, items);
        if done || failed {
          RestIsIgnored(lines, i, decode, scanFailed);
          return failed;
        }
        items := items + [chunk];
      }
      WholePrefix(lines);
      assert Consume(items, scanFailed) == RanOut(items, scanFailed);
      if scanFailed {
        failed := Break(items);
      } else {
        EmitFinal(items);
        failed := false;
      }
    }
  }

  // ---- the provider contract ------------------------------------------------------------------

  /** The stream breaks off: at a malformed payload, or by a scanner failure. */
  predicate Breaks(items: seq<Item>, scanFailed: bool) {
    Length(items) < |items| || scanFailed
  }

  /** The texts read before the stream ends or breaks off. */
  function TextsOf(items: seq<Item>): seq<string> {
    PartTexts(PartsOf(items[..Length(items)]))
  }

  /**
   * The provider contract: an error is returned exactly when the stream broke off before any text, and then nothing
   * was emitted; otherwise only the last chunk can carry a finish reason. It is missing exactly when the stream ran to
   * its end without a function call and without any finish reason.
   */
  lemma {:induction false} ProviderContract(items: seq<Item>, scanFailed: bool)
    ensures var r := Consume(items, scanFailed);
            && (r.failed <==> Breaks(items, scanFailed) && TextsOf(items) == [])
            && (r.failed ==> r.emitted == [])
            && OneFinish(r.emitted)
            && (!r.failed ==>
                  (HasFinish(r.emitted) <==>
                     Breaks(items, scanFailed) || PartCalls(PartsOf(items)) != [] || FinishOf(items) != ""))
  {
    WholePrefix(items);
    TextsThen(TextsOf(items), ERROR_DELTA);
    TextsThen(TextsOf(items), Final(items));
  }

  lemma {:induction false} OneItem(item: Item)
    requires item.Some?
    ensures Length([item]) == 1 && PartsOf([item]) == First(item.value).parts
    ensures FinishOf([item]) ==
            if First(item.value).finishReason == "" then "" else FinishReason(First(item.value).finishReason)
    ensures UsageOf([item]) == if item.value.usage != NO_USAGE then Some(item.value.usage) else None
  {
    LengthIs([item], 1);
    assert [item][..0] == [];
    assert [] + First(item.value).parts == First(item.value).parts;
  }

  /** A stream of text that names no finish reason closes with a chunk that has none. */
  lemma {:induction false} FinishCanBeMissing(text: string)
    requires text != ""
    ensures Consume([Some(Chunk([Candidate([Part(text, None)], "")], NO_USAGE))], false) ==
            Reading([TextDelta(text), StreamDelta("", "", None, [], "")], false)
  {
    var part := Part(text, None);
    OneItem(Some(Chunk([Candidate([part], "")], NO_USAGE)));
    PartsNext([], part);
    assert [] + [part] == [part] && [] + [text] == [text] && [] + [TextDelta(text)] == [TextDelta(text)];
  }
}
