/** The complete OpenAI response, and its agreement with any streaming of the same message. */
module OpenAIComplete {
  import opened Chat
  import opened Collections
  import opened Provider
  import opened Capture
  import opened ToolCallFragments
  import opened OpenAIReader

  datatype WireMessage = WireMessage(content: string, toolCalls: seq<ToolCall>, reasoning: string)

  datatype WireChoice = WireChoice(message: WireMessage, finishReason: string)

  datatype WireResponse = WireResponse(id: string, model: string, choices: seq<WireChoice>, usage: Usage)

  /** Only the first choice counts; without one the response is empty but for its identity and usage. */
  function Completed(r: WireResponse): ChatResponse {
    if r.choices == [] then ChatResponse(r.id, r.model, "", "", r.usage, [], "")
    else
      var c := r.choices[0];
      ChatResponse(r.id, r.model, c.message.content, c.finishReason, r.usage, c.message.toolCalls, c.message.reasoning)
  }

  method ParseResponse(parsed: WireResponse) returns (out: ChatResponse)
    ensures out == Completed(parsed)
    ensures out.id == parsed.id && out.model == parsed.model && out.usage == parsed.usage
    ensures parsed.choices == [] ==>
              out.content == "" && out.finishReason == "" && out.toolCalls == [] && out.reasoning == ""
    ensures parsed.choices != [] ==>
              var c := parsed.choices[0];
              && out.content == c.message.content && out.finishReason == c.finishReason
              && out.toolCalls == c.message.toolCalls && out.reasoning == c.message.reasoning
  {
    out := ChatResponse(parsed.id, parsed.model, "", "", parsed.usage, [], "");
    if |parsed.choices| > 0 {
      var choice := parsed.choices[0];
      out := out.(content := choice.message.content, finishReason := choice.finishReason,
                  reasoning := choice.message.reasoning);
      var calls := [];
      for i := 0 to |choice.message.toolCalls|
        invariant calls == choice.message.toolCalls[..i]
      {
        var tc := choice.message.toolCalls[i];
        calls := calls + [ToolCall(tc.id, tc.name, tc.arguments)];
      }
      out := out.(toolCalls := calls);
    }
  }

  // ---- splitting a message into chunks --------------------------------------------------------

  function AllGood(chunks: seq<Chunk>): seq<Item> {
    if chunks == [] then [] else AllGood(chunks[..|chunks| - 1]) + [Good(chunks[|chunks| - 1])]
  }

  function Range(n: nat): seq<int> {
    if n == 0 then [] else Range(n - 1) + [n - 1]
  }

  /**
   * The chunks carry the message cut up in any way: its text and its reasoning in pieces, and each call `i` as
   * fragments of index `i` that together name it and spell out its arguments, in any interleaving.
   */
  ghost predicate Splits(chunks: seq<Chunk>, m: WireMessage) {
    var items := AllGood(chunks);
    && Concat(ContentOf(items)) == m.content
    && ReasoningOf(items) == m.reasoning
    && Indices(FragmentsOf(items)) == Elements(Range(|m.toolCalls|))
    && forall i :: 0 <= i < |m.toolCalls| ==>
         Summary(At(FragmentsOf(items), i)) ==
         Accum(m.toolCalls[i].id, m.toolCalls[i].name, m.toolCalls[i].arguments)
  }

  /** The last chunk, and no other, has the finish reason; it also has the usage. */
  ghost predicate Closes(chunks: seq<Chunk>, finish: string, usage: Option<Usage>) {
    && chunks != [] && finish != ""
    && (forall i :: 0 <= i < |chunks| - 1 ==> First(chunks[i]).finishReason == "")
    && First(chunks[|chunks| - 1]).finishReason == finish
    && chunks[|chunks| - 1].usage == usage
  }

  // ---- the agreement --------------------------------------------------------------------------

  lemma {:induction false} RangeAscends(n: nat)
    ensures |Range(n)| == n && (forall i :: 0 <= i < n ==> Range(n)[i] == i)
    ensures Ascending(Range(n))
  {
    if n == 0 {
    } else {
      RangeAscends(n - 1);
    }
    ByStep(Range(n));
  }

  lemma {:induction false} ByStep(s: seq<int>)
    requires forall i :: 0 <= i < |s| - 1 ==> s[i] < s[i + 1]
    ensures Ascending(s)
  {
    if |s| <= 1 {
    } else {
      ByStep(s[1..]);
    }
  }

  lemma {:induction false} CallsOfRange(fragments: seq<Fragment>, calls: seq<ToolCall>, n: nat)
    requires n <= |calls|
    requires forall i :: 0 <= i < |calls| ==>
               Summary(At(fragments, i)) == Accum(calls[i].id, calls[i].name, calls[i].arguments)
    ensures CallsAt(fragments, Range(n)) == AllWithArguments(calls[..n])
  {
    if n == 0 {
    } else {
      CallsOfRange(fragments, calls, n - 1);
      CallsAtNext(fragments, Range(n - 1), n - 1);
      PrefixNext(calls, n - 1);
      WithArgumentsNext(calls[..n - 1], calls[n - 1]);
    }
  }

  lemma {:induction false} WithArgumentsNext(calls: seq<ToolCall>, call: ToolCall)
    ensures AllWithArguments(calls + [call]) == AllWithArguments(calls) + [WithArguments(call)]
  {
    if calls == [] {
      assert calls + [call] == [call] && [call][1..] == [];
    } else {
      assert (calls + [call])[1..] == calls[1..] + [call];
      WithArgumentsNext(calls[1..], call);
    }
  }

  lemma {:induction false} ContentIsNotEmpty(items: seq<Item>)
    ensures "" !in ContentOf(items)
  {
    if items == [] {
    } else {
      ContentIsNotEmpty(items[..|items| - 1]);
    }
  }

  lemma {:induction false} TextsOfDeltas(texts: seq<string>)
    requires "" !in texts
    ensures Texts(TextDeltas(texts)) == texts
  {
    if texts == [] {
    } else {
      var before, last := texts[..|texts| - 1], texts[|texts| - 1];
      assert texts == before + [last];
      TextsOfDeltas(before);
      TextsAppend(TextDeltas(before), [TextDelta(last)]);
    }
  }

  lemma {:induction false} AllGoodItems(chunks: seq<Chunk>)
    ensures |AllGood(chunks)| == |chunks|
    ensures forall i :: 0 <= i < |chunks| ==> AllGood(chunks)[i] == Good(chunks[i])
  {
    if chunks == [] {
    } else {
      AllGoodItems(chunks[..|chunks| - 1]);
    }
  }

  lemma {:induction false} ClosedStream(chunks: seq<Chunk>, finish: string, usage: Option<Usage>,
                                        rest: seq<Item>, scanFailed: bool)
    requires Closes(chunks, finish, usage)
    ensures var items := AllGood(chunks);
            Consume(items + rest, scanFailed) ==
            Reading(TextDeltas(ContentOf(items)) + [Final(finish, usage, items)], false)
  {
    var items := AllGood(chunks);
    var n := |chunks| - 1;
    AllGoodItems(chunks);
    assert !Continues(items[n]);
    LengthIs(items, n);
    EndIsFinal(items, rest, scanFailed);
    EndedGood(items[..n], chunks[n]);
    assert items == items[..n] + [items[n]];
  }

  lemma {:induction false} EndedGood(body: seq<Item>, chunk: Chunk)
    ensures Ended(body, Good(chunk)) ==
            Reading(TextDeltas(ContentOf(body + [Good(chunk)]))
                    + [Final(First(chunk).finishReason, chunk.usage, body + [Good(chunk)])], false)
  {
  }

  lemma {:induction false} CollapseClosed(texts: seq<string>, d: StreamDelta)
    requires "" !in texts && d.delta == "" && d.finishReason != "" && d.usage.Some?
    ensures Collapse(TextDeltas(texts) + [d]) ==
            ChatResponse("", "", Concat(texts), d.finishReason, d.usage.value, d.toolCalls, d.reasoning)
  {
    var deltas := TextDeltas(texts) + [d];
    TextDeltasHaveNoFinish(texts);
    assert deltas[..|deltas| - 1] == TextDeltas(texts);
    TextsOfDeltas(texts);
    TextsAppend(TextDeltas(texts), [d]);
    assert Texts([d]) == [] && texts + [] == texts;
    CollapseFinished(deltas);
  }

  lemma {:induction false} CallsOfSplit(chunks: seq<Chunk>, m: WireMessage)
    requires Splits(chunks, m)
    ensures Calls(FragmentsOf(AllGood(chunks))) == AllWithArguments(m.toolCalls)
  {
    var fragments := FragmentsOf(AllGood(chunks));
    RangeAscends(|m.toolCalls|);
    AscendingIsUnique(Sorted(Indices(fragments)), Range(|m.toolCalls|));
    CallsOfRange(fragments, m.toolCalls, |m.toolCalls|);
    WholePrefix(m.toolCalls);
  }

  /**
   * Streaming and completing agree. However a message is cut into chunks, reading the chunks and collapsing what was
   * emitted yields the response that the complete answer yields, but for its id and model, which a stream does not
   * carry, and empty arguments, which become an empty object.
   */
  lemma {:induction false} StreamAgreesWithComplete(r: WireResponse, chunks: seq<Chunk>, rest: seq<Item>,
                                                    scanFailed: bool)
    requires r.choices != [] && Splits(chunks, r.choices[0].message)
    requires Closes(chunks, r.choices[0].finishReason, Some(r.usage))
    ensures var streamed := Consume(AllGood(chunks) + rest, scanFailed);
            var complete := Completed(r);
            && !streamed.failed
            && Collapse(streamed.emitted) ==
               complete.(id := "", model := "", toolCalls := AllWithArguments(complete.toolCalls))
  {
    var c, items := r.choices[0], AllGood(chunks);
    ClosedStream(chunks, c.finishReason, Some(r.usage), rest, scanFailed);
    ContentIsNotEmpty(items);
    CallsOfSplit(chunks, c.message);
    CollapseClosed(ContentOf(items), Final(c.finishReason, Some(r.usage), items));
  }
}
