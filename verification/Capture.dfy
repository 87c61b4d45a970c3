/** A buffered upstream stream and the complete response it stands for. */
module Capture {
  import opened Chat

  /** The only chunk with a finish reason is the last one. */
  ghost predicate Finished(deltas: seq<StreamDelta>) {
    deltas != [] && deltas[|deltas| - 1].finishReason != "" && Unfinished(deltas[..|deltas| - 1])
  }

  ghost predicate Unfinished(deltas: seq<StreamDelta>) {
    forall d :: d in deltas ==> d.finishReason == ""
  }

  const BLANK := ChatResponse("", "", "", "", NO_USAGE, [], "")

  /** Texts concatenate; the other fields are those of the latest chunk with a finish reason. */
  function Collapse(deltas: seq<StreamDelta>): ChatResponse {
    if deltas == [] then BLANK
    else
      var before, d := Collapse(deltas[..|deltas| - 1]), deltas[|deltas| - 1];
      var r := before.(content := before.content + d.delta);
      if d.finishReason == "" then r
      else r.(finishReason := d.finishReason, toolCalls := d.toolCalls, reasoning := d.reasoning,
              usage := if d.usage.Some? then d.usage.value else before.usage)
  }

  method ResponseFromDeltas(deltas: seq<StreamDelta>) returns (resp: ChatResponse)
    ensures resp == Collapse(deltas)
  {
    resp := BLANK;
    for i := 0 to |deltas|
      invariant resp == Collapse(deltas[..i])
    {
      var d := deltas[i];
      assert deltas[..i + 1][..i] == deltas[..i];
      resp := resp.(content := resp.content + d.delta);
      if d.finishReason != "" {
        resp := resp.(finishReason := d.finishReason, toolCalls := d.toolCalls, reasoning := d.reasoning);
        if d.usage.Some? {
          resp := resp.(usage := d.usage.value);
        }
      }
    }
    assert deltas[..|deltas|] == deltas;
  }

  lemma {:induction false} ContentIsTexts(deltas: seq<StreamDelta>)
    ensures Collapse(deltas).content == Concat(Texts(deltas))
  {
    if deltas == [] {
    } else {
      var before, d := deltas[..|deltas| - 1], deltas[|deltas| - 1];
      ContentIsTexts(before);
      assert deltas == before + [d];
      TextsAppend(before, [d]);
      ConcatAppend(Texts(before), Texts([d]));
      assert Concat(Texts([d])) == d.delta;
    }
  }

  lemma {:induction false} UnfinishedIsBlank(deltas: seq<StreamDelta>)
    requires Unfinished(deltas)
    ensures Collapse(deltas).(content := "") == BLANK
  {
    if deltas == [] {
    } else {
      UnfinishedIsBlank(deltas[..|deltas| - 1]);
    }
  }

  /** A run closed by its final chunk collapses to all the text and the final chunk's outcome. */
  lemma {:induction false} CollapseFinished(deltas: seq<StreamDelta>)
    requires Finished(deltas)
    ensures var last := deltas[|deltas| - 1];
            Collapse(deltas) == ChatResponse(
              "", "", Concat(Texts(deltas)), last.finishReason,
              if last.usage.Some? then last.usage.value else NO_USAGE, last.toolCalls, last.reasoning)
  {
    ContentIsTexts(deltas);
    UnfinishedIsBlank(deltas[..|deltas| - 1]);
  }

  /** The chunk at `k` is the last with a finish reason; there is none if it is -1. */
  ghost predicate LastFinish(deltas: seq<StreamDelta>, k: int) {
    && -1 <= k < |deltas| && (k >= 0 ==> deltas[k].finishReason != "")
    && forall i :: k < i < |deltas| ==> deltas[i].finishReason == ""
  }

  /** The chunk at `u` is the last with a finish reason and a usage; there is none if it is -1. */
  ghost predicate LastUsage(deltas: seq<StreamDelta>, u: int) {
    && -1 <= u < |deltas| && (u >= 0 ==> deltas[u].finishReason != "" && deltas[u].usage.Some?)
    && forall i :: u < i < |deltas| ==> deltas[i].finishReason == "" || deltas[i].usage.None?
  }

  /**
   * Any run, with any number of finish reasons: the outcome is that of the last chunk that has one, but for a usage it
   * lacks, which is that of an earlier one.
   */
  lemma {:induction false} CollapseIsLast(deltas: seq<StreamDelta>, k: int, u: int)
    requires LastFinish(deltas, k) && LastUsage(deltas, u)
    ensures var resp := Collapse(deltas);
            && resp.id == "" && resp.model == ""
            && resp.content == Concat(Texts(deltas))
            && resp.finishReason == (if k < 0 then "" else deltas[k].finishReason)
            && resp.toolCalls == (if k < 0 then [] else deltas[k].toolCalls)
            && resp.reasoning == (if k < 0 then "" else deltas[k].reasoning)
            && resp.usage == (if u < 0 then Usage(0, 0, 0) else deltas[u].usage.value)
  {
    ContentIsTexts(deltas);
    OutcomeIsLast(deltas, k, u);
  }

  lemma {:induction false} OutcomeIsLast(deltas: seq<StreamDelta>, k: int, u: int)
    requires LastFinish(deltas, k) && LastUsage(deltas, u)
    ensures Collapse(deltas).(content := "") ==
            ChatResponse("", "", "", if k < 0 then "" else deltas[k].finishReason,
                         if u < 0 then NO_USAGE else deltas[u].usage.value,
                         if k < 0 then [] else deltas[k].toolCalls, if k < 0 then "" else deltas[k].reasoning)
  {
    if deltas == [] {
    } else {
      var n := |deltas| - 1;
      var k', u' := if k == n then FindFinish(deltas[..n]) else k, if u == n then FindUsage(deltas[..n]) else u;
      OutcomeIsLast(deltas[..n], k', u');
    }
  }

  ghost function FindFinish(deltas: seq<StreamDelta>): (k: int)
    ensures LastFinish(deltas, k)
  {
    if deltas == [] then -1
    else if deltas[|deltas| - 1].finishReason != "" then |deltas| - 1
    else FindFinish(deltas[..|deltas| - 1])
  }

  ghost function FindUsage(deltas: seq<StreamDelta>): (u: int)
    ensures LastUsage(deltas, u)
  {
    if deltas == [] then -1
    else
      var d := deltas[|deltas| - 1];
      if d.finishReason != "" && d.usage.Some? then |deltas| - 1 else FindUsage(deltas[..|deltas| - 1])
  }
}
