/**
 * The reasoning of a served turn comes back: what a request remembers on its way, and what the next turn of the same
 * conversation is routed with.
 */
module EchoRuns {
  import opened Chat
  import opened Collections
  import opened Capture
  import opened Orchestration
  import opened StreamRuns
  import RC = ReasoningCache

  /** What a run writes to the cache, in order. */
  function Memory(session: string, log: seq<Event>): seq<RC.Write> {
    if log == [] then []
    else
      var e := log[|log| - 1];
      Memory(session, log[..|log| - 1]) + if e.Remembered? then [RC.Write(session, e.calls, e.reasoning)] else []
  }

  function WriteOf(session: string, resp: ChatResponse): RC.Write {
    RC.Write(session, resp.toolCalls, resp.reasoning)
  }

  /** The last thing remembered is this response. */
  ghost predicate RemembersLast(session: string, log: seq<Event>, resp: ChatResponse) {
    var memory := Memory(session, log);
    memory != [] && memory[|memory| - 1] == WriteOf(session, resp)
  }

  lemma {:induction false} MemoryNext(session: string, log: seq<Event>, e: Event)
    ensures Memory(session, log + [e]) ==
            Memory(session, log) + if e.Remembered? then [RC.Write(session, e.calls, e.reasoning)] else []
  {
    assert (log + [e])[..|log|] == log;
  }

  lemma {:induction false} RememberingIsLast(session: string, st: State, resp: ChatResponse)
    ensures RemembersLast(session, st.Remembering(resp).log, resp)
  {
    MemoryNext(session, st.log, Remembered(resp.toolCalls, resp.reasoning));
  }

  /** Whatever the tool loop hands back is the last response it remembered. */
  lemma {:induction false} LoopRemembers(s: Setting, st: State, cand: Candidate, resp: ChatResponse, left: nat,
                                         session: string)
    requires RemembersLast(session, st.log, resp)
    ensures var loop := ToolLoop(s, st, cand, resp, left);
            loop.value.Ok? ==> RemembersLast(session, loop.st.log, loop.value.resp)
    decreases left
  {
    if left == 0 {
      RememberingIsLast(session, st, resp);
    } else if s.AllOwned(resp.toolCalls) {
      var next := Continue(s, st, cand, resp);
      if next.value.Ok? {
        var ready := Execute(s, st, resp.reasoning, resp.toolCalls).(stream := false);
        RememberingIsLast(session, Call(s, ready, cand).st, next.value.resp);
        LoopRemembers(s, next.st, cand, next.value.resp, left - 1, session);
      }
    }
  }

  /** The log ends with this response remembered. */
  ghost predicate EndsRemembered(log: seq<Event>, resp: ChatResponse) {
    log != [] && log[|log| - 1] == Remembered(resp.toolCalls, resp.reasoning)
  }

  /** Server calls that are handed back because the rounds are used up have been remembered a second time. */
  lemma {:induction false} ExhaustedLoopRemembersAgain(s: Setting, st: State, cand: Candidate, resp: ChatResponse,
                                                       left: nat)
    requires EndsRemembered(st.log, resp)
    ensures var loop := ToolLoop(s, st, cand, resp, left);
            loop.value.Ok? ==>
              && EndsRemembered(loop.st.log, loop.value.resp)
              && (s.AllOwned(loop.value.resp.toolCalls) ==>
                    EndsRemembered(loop.st.log[..|loop.st.log| - 1], loop.value.resp))
    decreases left
  {
    if left == 0 {
      assert st.Remembering(resp).log[..|st.log|] == st.log;
    } else if s.AllOwned(resp.toolCalls) {
      var next := Continue(s, st, cand, resp);
      if next.value.Ok? {
        ExhaustedLoopRemembersAgain(s, next.st, cand, next.value.resp, left - 1);
      }
    }
  }

  lemma {:induction false} EnteredLoopRemembers(s: Setting, st: State, cand: Candidate, resp: ChatResponse, left: nat,
                                                session: string)
    ensures var loop := ToolLoop(s, st.Remembering(resp), cand, resp, left);
            loop.value.Ok? ==> RemembersLast(session, loop.st.log, loop.value.resp)
  {
    RememberingIsLast(session, st, resp);
    LoopRemembers(s, st.Remembering(resp), cand, resp, left, session);
  }

  /** A served completion is the last thing its request remembered. */
  lemma {:induction false} CompleteRemembers(s: Setting, st: State, cands: seq<Candidate>, wire: Wire, session: string)
    ensures var run := Complete(s, st, cands, wire);
            run.value.Some? ==> RemembersLast(session, run.st.log, run.value.value.value)
    decreases |cands|
  {
    if cands == [] {
    } else {
      var tried := Try(s, st, cands[0], wire);
      if tried.value.Some? {
        var made := Attempts(s, st, cands[0], wire);
        EnteredLoopRemembers(s, made.st, cands[0], made.value.resp, MAX_TOOL_ROUNDS, session);
        var loop := ToolLoop(s, made.st.Remembering(made.value.resp), cands[0], made.value.resp, MAX_TOOL_ROUNDS);
        MemoryNext(session, loop.st.log, Credited(cands[0]));
        PlusNothing(Memory(session, loop.st.log));
      } else {
        CompleteRemembers(s, tried.st, cands[1..], wire, session);
      }
    }
  }

  /** The response a stream stands for; None if it is an error, or broke off. */
  function Answer(output: Output, clean: bool): Option<ChatResponse> {
    match output
    case Replay(deltas) => if clean then Some(Collapse(deltas)) else None
    case Burst(resp) => Some(resp)
    case ToolsFailed(_) => None
  }

  /** So is what a stream answered, unless it broke off. */
  lemma {:induction false} StreamRemembers(s: Setting, st: State, cands: seq<Candidate>, wire: Wire, session: string)
    ensures var run, picked := Stream(s, st, cands, wire), Picked(s, st, cands, wire);
            run.value.Some? ==>
              && picked.value.Some?
              && var answer := Answer(run.value.value.value, picked.value.value.value.Clean());
                 answer.Some? ==> RemembersLast(session, run.st.log, answer.value)
  {
    var picked := Picked(s, st, cands, wire);
    StreamIsPicked(s, st, cands, wire);
    if picked.value.Some? {
      var cand, capture := picked.value.value.cand, picked.value.value.value;
      var resp := Collapse(capture.deltas);
      RememberingIsLast(session, picked.st, resp);
      EnteredLoopRemembers(s, picked.st, cand, resp, MAX_TOOL_ROUNDS, session);
    }
  }

  // ---- the next turn --------------------------------------------------------------------------

  /** From `from` on, no write names this call in this session, and no other session overflows the cache. */
  ghost predicate Untouched(start: RC.Entries, history: seq<RC.Write>, from: nat, session: string, id: string) {
    && (forall i :: from <= i < |history| ==> !RC.Writes(history[i], session, id))
    && RC.Undisturbed(start, history, from, session)
  }

  /** An assistant turn with calls and without reasoning. */
  predicate Bare(msg: Message) {
    msg.role == Assistant && msg.toolCalls != [] && msg.reasoning == ""
  }

  /**
   * The turn a client sends back bare carries the served reasoning again, in any history that has the write of the
   * served response at `p`: whatever was remembered before it, and whatever since by any request, as long as that
   * neither names the call again nor overflows the cache from another session.
   */
  lemma {:induction false} NextTurnEchoes(start: RC.Entries, history: seq<RC.Write>, p: nat, session: string,
                                          resp: ChatResponse, msg: Message)
    requires p < |history| && history[p] == WriteOf(session, resp) && resp.reasoning != ""
    requires Bare(msg) && msg.toolCalls == resp.toolCalls && msg.toolCalls[0].id != ""
    requires Untouched(start, history, p + 1, session, msg.toolCalls[0].id)
    ensures RC.Echoed(RC.Run(start, history), session, msg) == msg.(reasoning := resp.reasoning)
  {
    assert msg.toolCalls[0] in resp.toolCalls;
    assert RC.Writes(history[p], session, msg.toolCalls[0].id);
    assert RC.LastWrite(history, session, msg.toolCalls[0].id) == p;
    RC.EchoRestoresReasoning(start, history, session, msg);
  }

  /** The last of the request's own writes stands at `p`; those of other requests may stand anywhere. */
  ghost predicate EndsAt(session: string, log: seq<Event>, history: seq<RC.Write>, p: nat) {
    var memory := Memory(session, log);
    memory != [] && p < |history| && history[p] == memory[|memory| - 1]
  }

  /** After a completion. */
  lemma {:induction false} CompletionIsEchoed(
      s: Setting, st: State, cands: seq<Candidate>, wire: Wire, session: string, start: RC.Entries,
      history: seq<RC.Write>, p: nat, msg: Message)
    requires var run := Complete(s, st, cands, wire);
             && run.value.Some? && run.value.value.value.reasoning != ""
             && EndsAt(session, run.st.log, history, p)
             && Bare(msg) && msg.toolCalls == run.value.value.value.toolCalls
    requires msg.toolCalls[0].id != "" && Untouched(start, history, p + 1, session, msg.toolCalls[0].id)
    ensures RC.Echoed(RC.Run(start, history), session, msg) ==
            msg.(reasoning := Complete(s, st, cands, wire).value.value.value.reasoning)
  {
    CompleteRemembers(s, st, cands, wire, session);
    NextTurnEchoes(start, history, p, session, Complete(s, st, cands, wire).value.value.value, msg);
  }

  /** After a stream, although its reasoning never went to the client. */
  lemma {:induction false} StreamIsEchoed(
      s: Setting, st: State, cands: seq<Candidate>, wire: Wire, session: string, start: RC.Entries,
      history: seq<RC.Write>, p: nat, msg: Message, resp: ChatResponse)
    requires var run, picked := Stream(s, st, cands, wire), Picked(s, st, cands, wire);
             && run.value.Some? && picked.value.Some?
             && Answer(run.value.value.value, picked.value.value.value.Clean()) == Some(resp) && resp.reasoning != ""
             && EndsAt(session, run.st.log, history, p)
    requires Bare(msg) && msg.toolCalls == resp.toolCalls && msg.toolCalls[0].id != ""
    requires Untouched(start, history, p + 1, session, msg.toolCalls[0].id)
    ensures RC.Echoed(RC.Run(start, history), session, msg) == msg.(reasoning := resp.reasoning)
  {
    StreamRemembers(s, st, cands, wire, session);
    NextTurnEchoes(start, history, p, session, resp, msg);
  }
}
