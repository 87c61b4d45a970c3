/**
 * The other half of the provider contract and the Anthropic reader: a stream should have one chunk with a finish
 * reason, and it should be the last. Here is exactly when it has one, and when that is the last.
 */
module AnthropicFinish {
  import opened Chat
  import opened EventStream
  import opened AnthropicWire
  import opened AnthropicReader
  import opened AnthropicContract

  predicate StartsTool(ev: WireEvent) {
    IsContent(ev) && !IsText(ev)
  }

  predicate HasTool(events: seq<WireEvent>) { exists ev :: ev in events && StartsTool(ev) }

  /** The stop reason last announced, even if it was an empty one. */
  function LastStop(events: seq<WireEvent>): string {
    if events == [] then ""
    else
      var last := events[|events| - 1];
      if last.name == "message_delta" && last.payload.delta.Some? then last.payload.delta.value.stopReason
      else LastStop(events[..|events| - 1])
  }

  /** The event at `p` makes the reader emit a chunk. */
  predicate Emits(events: seq<WireEvent>, p: nat)
    requires p < |events|
  {
    IsText(events[p]) || events[p].name == "message_stop" || (events[p].name == "error" && HasContent(events[..p]))
  }

  /** That chunk has a finish reason: after a tool call, after a stop reason, or because of an error after content. */
  predicate Closes(events: seq<WireEvent>, p: nat)
    requires p < |events|
  {
    || (events[p].name == "message_stop" && (HasTool(events[..p]) || LastStop(events[..p]) != ""))
    || (events[p].name == "error" && HasContent(events[..p]))
  }

  ghost predicate OneFinish(emitted: seq<Emission>) {
    forall i :: 0 <= i < |emitted| - 1 ==> emitted[i].finishReason == ""
  }

  ghost predicate HasFinish(emitted: seq<Emission>) {
    exists i :: 0 <= i < |emitted| && emitted[i].finishReason != ""
  }

  lemma {:induction false} HandleKeeps(st: State, ev: WireEvent)
    ensures var r := Handle(st, ev);
            && (r.st.tools == map[] <==> st.tools == map[] && !StartsTool(ev))
            && r.st.stopReason == (if ev.name == "message_delta" && ev.payload.delta.Some?
                                   then ev.payload.delta.value.stopReason else st.stopReason)
  {
    if StartsTool(ev) {
      assert ev.payload.index.value in Handle(st, ev).st.tools;
    }
  }

  lemma {:induction false} EventNext(events: seq<WireEvent>, ev: WireEvent)
    ensures HasTool(events + [ev]) <==> HasTool(events) || StartsTool(ev)
    ensures LastStop(events + [ev]) == if ev.name == "message_delta" && ev.payload.delta.Some?
                                       then ev.payload.delta.value.stopReason else LastStop(events)
  {
    assert (events + [ev])[..|events|] == events;
    assert forall x :: x in events + [ev] <==> x in events || x == ev;
  }

  /** One event that does not fail, an error event included. */
  lemma {:induction false} DeliveredIs(st: State, ev: WireEvent)
    requires !Handle(st, ev).failed
    ensures Handle(st, ev).st.delivered <==> st.delivered || IsContent(ev)
  {
    if ev.name == "error" {
    } else {
      HandleIs(st, ev);
    }
  }

  /** What the state knows after events that did not fail. */
  lemma {:induction false} StateIs(events: seq<WireEvent>)
    requires !Feed(FRESH, events).failed
    ensures var st := Feed(FRESH, events).st;
            && (st.delivered <==> HasContent(events)) && (st.tools == map[] <==> !HasTool(events))
            && st.stopReason == LastStop(events)
  {
    if events == [] {
    } else {
      var before, last := events[..|events| - 1], events[|events| - 1];
      StateIs(before);
      HandleKeeps(Feed(FRESH, before).st, last);
      DeliveredIs(Feed(FRESH, before).st, last);
      HasNext(before, last);
      EventNext(before, last);
      assert events == before + [last];
    }
  }

  /** What the last event adds to what is emitted. */
  lemma {:induction false} LastAdds(events: seq<WireEvent>, last: WireEvent)
    requires !Feed(FRESH, events + [last]).failed
    ensures var all, n := events + [last], |events|;
            var more := Handle(Feed(FRESH, events).st, last).emitted;
            && !Feed(FRESH, events).failed
            && Feed(FRESH, all).emitted == Feed(FRESH, events).emitted + more
            && |more| == (if Emits(all, n) then 1 else 0)
            && (more != [] ==> (more[0].finishReason != "" <==> Closes(all, n)))
            && (Closes(all, n) ==> Emits(all, n))
  {
    assert (events + [last])[..|events|] == events;
    StateIs(events);
  }

  lemma {:induction false} PrefixesStay(events: seq<WireEvent>, last: WireEvent)
    ensures forall p: nat :: p < |events| ==>
              && (Emits(events + [last], p) <==> Emits(events, p))
              && (Closes(events + [last], p) <==> Closes(events, p))
  {
    forall p: nat | p < |events|
      ensures Emits(events + [last], p) <==> Emits(events, p)
      ensures Closes(events + [last], p) <==> Closes(events, p)
    {
      assert (events + [last])[..p] == events[..p];
    }
  }

  /**
   * A stream of events that does not fail has a chunk with a finish reason exactly when some event closes it, and that
   * chunk is the last exactly when nothing is emitted after an event that closed it.
   */
  lemma {:induction false} Finishing(events: seq<WireEvent>)
    requires !Feed(FRESH, events).failed
    ensures var emitted := Feed(FRESH, events).emitted;
            && (emitted != [] <==> exists p: nat :: p < |events| && Emits(events, p))
            && (HasFinish(emitted) <==> exists p: nat :: p < |events| && Closes(events, p))
            && (OneFinish(emitted) <==>
                  forall p: nat, q: nat :: p < q < |events| && Closes(events, p) ==> !Emits(events, q))
  {
    if events == [] {
    } else {
      var before, last := events[..|events| - 1], events[|events| - 1];
      assert events == before + [last];
      LastAdds(before, last);
      Finishing(before);
      PrefixesStay(before, last);
      var seen, more := Feed(FRESH, before).emitted, Handle(Feed(FRESH, before).st, last).emitted;
      FinishNext(seen, more);
      ClosedNext(before, last);
    }
  }

  lemma {:induction false} FinishNext(seen: seq<Emission>, more: seq<Emission>)
    requires |more| <= 1
    ensures HasFinish(seen + more) <==> HasFinish(seen) || (more != [] && more[0].finishReason != "")
    ensures OneFinish(seen + more) <==> if more == [] then OneFinish(seen) else !HasFinish(seen)
  {
    var all := seen + more;
    assert forall i :: 0 <= i < |seen| ==> all[i] == seen[i];
    if HasFinish(seen) {
      var i :| 0 <= i < |seen| && seen[i].finishReason != "";
      assert all[i].finishReason != "";
    }
    if more != [] {
      assert all[|seen|] == more[0];
    }
  }

  /** The same, for the events. */
  lemma {:induction false} ClosedNext(events: seq<WireEvent>, last: WireEvent)
    ensures var all, n := events + [last], |events|;
            && ((exists p: nat :: p < |all| && Emits(all, p)) <==>
                (exists p: nat :: p < n && Emits(events, p)) || Emits(all, n))
            && ((exists p: nat :: p < |all| && Closes(all, p)) <==>
                (exists p: nat :: p < n && Closes(events, p)) || Closes(all, n))
            && ((forall p: nat, q: nat :: p < q < |all| && Closes(all, p) ==> !Emits(all, q)) <==>
                && (forall p: nat, q: nat :: p < q < n && Closes(events, p) ==> !Emits(events, q))
                && (Emits(all, n) ==> forall p: nat :: p < n ==> !Closes(events, p)))
  {
    PrefixesStay(events, last);
  }

  /** For a stream as a whole: the chunks of a reading that is no error. */
  lemma {:induction false} FinishAfterCleanEnd(lines: seq<string>, decode: string -> Option<Payload>)
    requires Consume(lines, false, decode).error.None?
    ensures var events := Handled(lines, false, decode);
            var emitted := Consume(lines, false, decode).emitted;
            && (HasFinish(emitted) <==> exists p: nat :: p < |events| && Closes(events, p))
            && (OneFinish(emitted) <==>
                  forall p: nat, q: nat :: p < q < |events| && Closes(events, p) ==> !Emits(events, q))
  {
    ConsumeIs(lines, false, decode);
    Finishing(Handled(lines, false, decode));
  }

  // ---- streams that break the contract --------------------------------------------------------

  function Text(text: string): WireEvent {
    OnWire(TextFragment(0, text))
  }

  const FAULT := OnWire(ErrorEvent("overloaded"))

  /** Text without a message_stop: no error, and no finish reason. */
  lemma {:induction false} FinishCanBeMissing(text: string)
    ensures var r := Feed(FRESH, [Text(text)]);
            !r.failed && r.st.delivered && r.emitted != [] && !HasFinish(r.emitted)
  {
    FeedOne(FRESH, Text(text));
  }

  /** An error does not end the stream: more text can follow the chunk that closed it. */
  lemma {:induction false} FinishCanBeFollowed(text: string)
    ensures var r := Feed(FRESH, [Text(text), FAULT] + [Text(text)]);
            !r.failed && HasFinish(r.emitted) && !OneFinish(r.emitted)
  {
    var st := Handle(FRESH, Text(text)).st;
    assert [Text(text), FAULT] == [Text(text)] + [FAULT];
    FeedAppend(FRESH, [Text(text)], [FAULT]);
    FeedAppend(FRESH, [Text(text), FAULT], [Text(text)]);
    FeedOne(FRESH, Text(text));
    FeedOne(st, FAULT);
    FeedOne(st, Text(text));
    var seen := Feed(FRESH, [Text(text), FAULT]).emitted;
    assert seen == [TextSeen(text)] + [Seen(ERROR_DELTA)];
    FinishNext([TextSeen(text)], [Seen(ERROR_DELTA)]);
    FinishNext(seen, [TextSeen(text)]);
  }

  /** A scanner failure after a text frame is an error although text was delivered. */
  lemma {:induction false} ErrorCanFollowText(f: RawFrame, decode: string -> Option<Payload>)
    requires Printable(f) && decode(f.payload).Some? && IsText(WireEvent(f.name, decode(f.payload).value))
    ensures var r := Consume([EventLine(f)] + ([DataLine(f)] + [""]), true, decode);
            r.error.Some? && r.emitted != []
  {
    HandledOne(f, true, decode);
    ConsumeIs([EventLine(f)] + ([DataLine(f)] + [""]), true, decode);
    FeedOne(FRESH, WireEvent(f.name, decode(f.payload).value));
  }
}
