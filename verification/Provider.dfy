/** What a provider's stream comes to, and the contract every provider port promises to keep. */
module Provider {
  import opened Chat

  /** The chunks emitted, and whether an error was returned. */
  datatype Reading = Reading(emitted: seq<StreamDelta>, failed: bool)

  function TextDeltas(texts: seq<string>): seq<StreamDelta> {
    if texts == [] then [] else TextDeltas(texts[..|texts| - 1]) + [TextDelta(texts[|texts| - 1])]
  }

  /** No chunk but the last has a finish reason. */
  ghost predicate OneFinish(deltas: seq<StreamDelta>) {
    forall i :: 0 <= i < |deltas| - 1 ==> deltas[i].finishReason == ""
  }

  predicate HasFinish(deltas: seq<StreamDelta>) {
    deltas != [] && deltas[|deltas| - 1].finishReason != ""
  }

  lemma {:induction false} TextsThen(texts: seq<string>, d: StreamDelta)
    ensures OneFinish(TextDeltas(texts)) && !HasFinish(TextDeltas(texts))
    ensures OneFinish(TextDeltas(texts) + [d]) && (HasFinish(TextDeltas(texts) + [d]) <==> d.finishReason != "")
  {
    TextDeltasHaveNoFinish(texts);
  }

  lemma {:induction false} TextDeltasHaveNoFinish(texts: seq<string>)
    ensures |TextDeltas(texts)| == |texts|
    ensures forall i :: 0 <= i < |texts| ==> TextDeltas(texts)[i] == TextDelta(texts[i])
  {
    if texts == [] {
    } else {
      TextDeltasHaveNoFinish(texts[..|texts| - 1]);
    }
  }
}
