/**
 * What the messages of a request say, field by field: which message tells which call, with whose reasoning and with
 * what result, over whole runs.
 */
module Transcripts {
  import opened Chat
  import opened Collections
  import opened Orchestration
  import opened OrchestrationRuns
  import opened Conversation

  /** The executed calls of a log, in order. */
  function Executions(log: seq<Event>): (done: seq<Event>)
    ensures forall e :: e in done ==> e.Executed?
  {
    if log == [] then []
    else
      var e := log[|log| - 1];
      Executions(log[..|log| - 1]) + if e.Executed? then [e] else []
  }

  /** `asked` makes the call of an execution and nothing else, and `answered` gives its result. */
  ghost predicate Tells(asked: Message, answered: Message, e: Event) {
    && e.Executed?
    && asked.role == Assistant && asked.content == "" && asked.toolCallId == ""
    && asked.toolCalls == [e.call] && asked.reasoning == e.reasoning
    && answered.role == Tool && answered.content == e.result && answered.toolCallId == e.call.id
    && answered.toolCalls == [] && answered.reasoning == ""
  }

  /** `messages` is `origin` and two messages for each execution, in order. */
  ghost predicate Transcript(origin: seq<Message>, done: seq<Event>, messages: seq<Message>) {
    var n := |origin|;
    && |messages| == n + 2 * |done|
    && messages[..n] == origin
    && forall k :: 0 <= k < |done| ==> Tells(messages[n + 2 * k], messages[n + 2 * k + 1], done[k])
  }

  lemma {:induction false} TranscriptNext(origin: seq<Message>, done: seq<Event>, messages: seq<Message>, e: Event,
                                          asked: Message, answered: Message)
    requires Transcript(origin, done, messages) && Tells(asked, answered, e)
    ensures Transcript(origin, done + [e], messages + [asked, answered])
  {
    var n, more, all := |origin|, done + [e], messages + [asked, answered];
    assert all[..n] == messages[..n];
    forall k | 0 <= k < |more|
      ensures Tells(all[n + 2 * k], all[n + 2 * k + 1], more[k])
    {
      if k < |done| {
        assert Tells(messages[n + 2 * k], messages[n + 2 * k + 1], done[k]);
      }
    }
  }

  // ---- one batch ------------------------------------------------------------------------------

  /** The log has grown by one execution for each call, in order, each with the tool's answer at its turn. */
  ghost predicate Executes(s: Setting, log: seq<Event>, log': seq<Event>, reasoning: string, calls: seq<ToolCall>) {
    var m := |log|;
    && |log'| == m + |calls|
    && log'[..m] == log
    && forall k :: 0 <= k < |calls| ==>
         log'[m + k] == Executed(calls[k], reasoning, s.tool(log'[..m + k], calls[k]))
  }

  lemma {:induction false} ExecutesNext(s: Setting, log: seq<Event>, log': seq<Event>, reasoning: string,
                                        calls: seq<ToolCall>, call: ToolCall)
    requires Executes(s, log, log', reasoning, calls)
    ensures var e := Executed(call, reasoning, s.tool(log', call));
            && Executes(s, log, log' + [e], reasoning, calls + [call])
            && (log' + [e])[|log|..] == log'[|log|..] + [e]
  {
    var m, e := |log|, Executed(call, reasoning, s.tool(log', call));
    assert (log' + [e])[..m] == log'[..m];
    forall k | 0 <= k < |calls + [call]|
      ensures (log' + [e])[m + k] ==
              Executed((calls + [call])[k], reasoning, s.tool((log' + [e])[..m + k], (calls + [call])[k]))
    {
      assert (log' + [e])[..m + k] == log'[..m + k];
      WholePrefix(log');
    }
  }

  /** A batch: the log grows by its executions, and the messages by exactly what tells them. */
  lemma {:induction false} ExecuteTells(s: Setting, st: State, reasoning: string, calls: seq<ToolCall>)
    ensures var after := Execute(s, st, reasoning, calls);
            && after.stream == st.stream
            && Executes(s, st.log, after.log, reasoning, calls)
            && Transcript(st.messages, after.log[|st.log|..], after.messages)
  {
    if calls == [] {
    } else {
      var n, call := |calls| - 1, calls[|calls| - 1];
      var before := Execute(s, st, reasoning, calls[..n]);
      ExecuteTells(s, st, reasoning, calls[..n]);
      ExecutesNext(s, st.log, before.log, reasoning, calls[..n], call);
      PrefixNext(calls, n);
      WholePrefix(calls);
      var e := Executed(call, reasoning, s.tool(before.log, call));
      TranscriptNext(st.messages, before.log[|st.log|..], before.messages, e,
                     Message(Assistant, "", "", [call], reasoning), Message(Tool, e.result, call.id, [], ""));
    }
  }

  // ---- whole runs -----------------------------------------------------------------------------

  lemma {:induction false} PairsTell(origin: seq<Message>, log: seq<Event>)
    ensures Transcript(origin, Executions(log), origin + Pairs(log))
  {
    if log == [] {
      PlusNothing(origin);
    } else {
      var before, e := log[..|log| - 1], log[|log| - 1];
      PairsTell(origin, before);
      if e.Executed? {
        var asked := Message(Assistant, "", "", [e.call], e.reasoning);
        var answered := Message(Tool, e.result, e.call.id, [], "");
        TranscriptNext(origin, Executions(before), origin + Pairs(before), e, asked, answered);
        Regroup(origin, Pairs(before), [asked, answered]);
      } else {
        PlusNothing(Pairs(before));
        PlusNothing(Executions(before));
      }
    }
  }

  lemma {:induction false} NoPairsIff(log: seq<Event>)
    ensures Pairs(log) == [] <==> Executions(log) == []
  {
    PairsTell([], log);
    assert [] + Pairs(log) == Pairs(log);
  }

  /** A request made after `log`, in a conversation begun with `messages`. */
  ghost predicate Shows(messages: seq<Message>, stream: bool, log: seq<Event>, cand: Candidate, req: Request) {
    && req.model == cand.model
    && Transcript(messages, Executions(log), req.messages)
    && req.stream == (stream && Executions(log) == [])
  }

  /** An event that follows `log`: what a provider was shown and answered, or what a tool answered. */
  ghost predicate Happens(s: Setting, messages: seq<Message>, stream: bool, log: seq<Event>, e: Event) {
    match e
    case Called(cand, req, outcome) => Shows(messages, stream, log, cand, req) && outcome == s.complete(log, cand, req)
    case Streamed(cand, req, capture) => Shows(messages, stream, log, cand, req) && capture == s.stream(log, cand, req)
    case Executed(call, _, result) =>
      call.name in s.registered && call.name !in s.clientTools && result == s.tool(log, call)
    case _ => true
  }

  /** A run's messages tell exactly the calls it executed, and so did those of every request it made on the way. */
  ghost predicate Told(s: Setting, messages: seq<Message>, stream: bool, st: State) {
    && Transcript(messages, Executions(st.log), st.messages)
    && st.stream == (stream && Executions(st.log) == [])
    && forall i :: 0 <= i < |st.log| ==> Happens(s, messages, stream, st.log[..i], st.log[i])
  }

  lemma {:induction false} ConsistentIsTold(s: Setting, messages: seq<Message>, stream: bool, st: State)
    requires Consistent(s, State([], messages, stream), st)
    ensures Told(s, messages, stream, st)
  {
    PairsTell(messages, st.log);
    NoPairsIff(st.log);
    forall i | 0 <= i < |st.log|
      ensures Happens(s, messages, stream, st.log[..i], st.log[i])
    {
      assert EventFits(s, State([], messages, stream), st.log[..i], st.log[i]);
      PairsTell(messages, st.log[..i]);
      NoPairsIff(st.log[..i]);
    }
  }

  /** A completion, over all its candidates and tool rounds. */
  lemma {:induction false} CompletionIsTold(s: Setting, messages: seq<Message>, stream: bool, cands: seq<Candidate>,
                                            wire: Wire)
    ensures Told(s, messages, stream, Complete(s, State([], messages, stream), cands, wire).st)
  {
    var start := State([], messages, stream);
    StartIsConsistent(s, messages, stream);
    CompleteIsConsistent(s, start, start, cands, wire);
    ConsistentIsTold(s, messages, stream, Complete(s, start, cands, wire).st);
  }

  /** A stream, likewise. */
  lemma {:induction false} StreamIsTold(s: Setting, messages: seq<Message>, stream: bool, cands: seq<Candidate>,
                                        wire: Wire)
    ensures Told(s, messages, stream, Stream(s, State([], messages, stream), cands, wire).st)
  {
    var start := State([], messages, stream);
    StartIsConsistent(s, messages, stream);
    StreamIsConsistent(s, start, start, cands, wire);
    ConsistentIsTold(s, messages, stream, Stream(s, start, cands, wire).st);
  }
}
