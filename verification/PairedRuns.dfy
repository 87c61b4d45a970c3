/** Pairing over whole runs: what the tool loop appends to a conversation never leaves a result unanswered. */
module PairedRuns {
  import opened Chat
  import opened Collections
  import opened Orchestration
  import opened OrchestrationRuns
  import opened Conversation
  import T = Translation

  /** Every tool message answers an earlier call. */
  ghost predicate AllAnswered(target: T.Target, messages: seq<Message>) {
    forall i: nat :: i < |messages| && messages[i].role.Tool? ==> T.Answered(target, messages, i)
  }

  lemma {:induction false} AnsweredStays(target: T.Target, messages: seq<Message>, more: seq<Message>, i: nat)
    requires i < |messages| && T.Answered(target, messages, i)
    ensures T.Answered(target, messages + more, i)
  {
    var j: nat, k: nat :| T.Answers(target, messages, i, j, k);
    assert T.Answers(target, messages + more, i, j, k);
  }

  /** An executed call answers itself: whatever its id, new or not, empty or not. */
  lemma {:induction false} PairStaysAnswered(target: T.Target, messages: seq<Message>, call: ToolCall,
                                             reasoning: string, result: string)
    requires AllAnswered(target, messages)
    ensures AllAnswered(target, messages + PairOf(call, reasoning, result))
  {
    var n, more := |messages|, PairOf(call, reasoning, result);
    var all := messages + more;
    forall i: nat | i < |all| && all[i].role.Tool?
      ensures T.Answered(target, all, i)
    {
      if i < n {
        AnsweredStays(target, messages, more, i);
      } else {
        assert T.Answers(target, all, i, n, 0);
      }
    }
  }

  lemma {:induction false} PairsStayAnswered(target: T.Target, messages: seq<Message>, log: seq<Event>)
    requires AllAnswered(target, messages)
    ensures AllAnswered(target, messages + Pairs(log))
  {
    if log == [] {
      PlusNothing(messages);
    } else {
      var before, e := log[..|log| - 1], log[|log| - 1];
      PairsStayAnswered(target, messages, before);
      if e.Executed? {
        PairStaysAnswered(target, messages + Pairs(before), e.call, e.reasoning, e.result);
        Regroup(messages, Pairs(before), PairOf(e.call, e.reasoning, e.result));
      } else {
        PlusNothing(Pairs(before));
      }
    }
  }

  /**
   * If the client's conversation answers every result, so does the final one, and so did every conversation that any
   * provider was shown on the way.
   */
  lemma {:induction false} RunsStayAnswered(s: Setting, origin: State, st: State, target: T.Target)
    requires Consistent(s, origin, st) && AllAnswered(target, origin.messages)
    ensures AllAnswered(target, st.messages)
    ensures forall i :: 0 <= i < |st.log| && (st.log[i].Called? || st.log[i].Streamed?) ==>
              AllAnswered(target, st.log[i].req.messages)
  {
    PairsStayAnswered(target, origin.messages, st.log);
    forall i | 0 <= i < |st.log| && (st.log[i].Called? || st.log[i].Streamed?)
      ensures AllAnswered(target, st.log[i].req.messages)
    {
      assert EventFits(s, origin, st.log[..i], st.log[i]);
      PairsStayAnswered(target, origin.messages, st.log[..i]);
    }
  }

  /** So the Anthropic request built from it has a tool_use block for every tool_result. */
  lemma {:induction false} RunsStayPaired(s: Setting, origin: State, st: State, decode: string -> T.Decoded)
    requires Consistent(s, origin, st) && AllAnswered(T.Anthropic, origin.messages)
    ensures forall i: nat :: i < |st.messages| && st.messages[i].role.Tool? ==>
              T.AnthropicPaired(st.messages, i, decode)
  {
    RunsStayAnswered(s, origin, st, T.Anthropic);
    forall i: nat | i < |st.messages| && st.messages[i].role.Tool?
      ensures T.AnthropicPaired(st.messages, i, decode)
    {
      T.AnthropicKeepsPairs(st.messages, i, decode);
    }
  }

  /** Tool messages make no calls themselves. */
  ghost predicate ResultsOnly(messages: seq<Message>) {
    forall m :: m in messages && m.role.Tool? ==> m.toolCalls == []
  }

  lemma {:induction false} PairsAreResultsOnly(log: seq<Event>)
    ensures ResultsOnly(Pairs(log))
  {
    if log == [] {
    } else {
      PairsAreResultsOnly(log[..|log| - 1]);
    }
  }

  /** An earlier call without an id is named like the placeholder. */
  ghost predicate NamedByChance(messages: seq<Message>, i: nat) {
    exists j: nat, k: nat ::
      T.Answers(T.Gemini, messages, i, j, k) && messages[j].toolCalls[k].name == T.NO_NAME
  }

  /**
   * For Gemini, function names are kept as well, for exactly the results that have an id, and those without one that
   * are named by chance; whatever the ids of the executed calls.
   */
  lemma {:induction false} GeminiRunsStayPaired(s: Setting, origin: State, st: State, decode: string -> T.Decoded,
                                                i: nat)
    requires Consistent(s, origin, st) && AllAnswered(T.Gemini, origin.messages) && ResultsOnly(origin.messages)
    requires i < |st.messages| && st.messages[i].role.Tool?
    ensures T.GeminiPaired(st.messages, i, decode) <==>
            st.messages[i].toolCallId != "" || NamedByChance(st.messages, i)
  {
    RunsStayAnswered(s, origin, st, T.Gemini);
    PairsAreResultsOnly(st.log);
    assert ResultsOnly(st.messages);
    forall j: nat, k: nat | T.CalledAt(st.messages, j, k, st.messages[i].toolCallId)
      ensures !st.messages[j].role.Tool?
    {
      assert st.messages[j] in st.messages;
    }
    T.GeminiKeepsPairs(st.messages, i, decode);
  }

  /** So an executed call without an id, as all of Gemini's own are, loses its name unless one is named by chance. */
  lemma {:induction false} ExecutedPairIsLost(messages: seq<Message>, call: ToolCall, reasoning: string,
                                              result: string, decode: string -> T.Decoded)
    requires call.id == "" && call.name != T.NO_NAME
    requires forall j: nat, k: nat :: T.CalledAt(messages, j, k, "") ==> messages[j].toolCalls[k].name != T.NO_NAME
    ensures !T.GeminiPaired(messages + PairOf(call, reasoning, result), |messages| + 1, decode)
  {
    var n, all := |messages|, messages + PairOf(call, reasoning, result);
    T.NameForNone(all);
    T.GeminiPairIsCall(all, n + 1, decode);
    assert forall j: nat :: j < n ==> all[j] == messages[j];
    forall j: nat, k: nat | T.Answers(T.Gemini, all, n + 1, j, k)
      ensures all[j].toolCalls[k].name != T.NO_NAME
    {
      assert j < n ==> T.CalledAt(messages, j, k, "");
    }
  }
}
