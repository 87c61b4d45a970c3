/**
 * The provider contract and the Anthropic reader: an error should be returned only when nothing was emitted.
 *
 * This adapter does not always keep it. Here is exactly when it does, in terms of the events before the first error
 * event.
 */
module AnthropicContract {
  import opened Chat
  import opened EventStream
  import opened AnthropicWire
  import opened AnthropicReader

  predicate IsText(ev: WireEvent) {
    ev.name == "content_block_delta" && ev.payload.delta.Some? && ev.payload.delta.value.kind == "text_delta"
  }

  /** Events that count as content: a text fragment, or the start of a tool block. */
  predicate IsContent(ev: WireEvent) {
    || IsText(ev)
    || (ev.name == "content_block_start" && ev.payload.block.Some? && ev.payload.block.value.kind == "tool_use"
        && ev.payload.index.Some?)
  }

  function BeforeError(events: seq<WireEvent>): (h: seq<WireEvent>)
    ensures h <= events
    ensures forall ev :: ev in h ==> ev.name != "error"
    ensures |h| < |events| ==> events[|h|].name == "error"
  {
    if events == [] || events[0].name == "error" then [] else [events[0]] + BeforeError(events[1..])
  }

  predicate HasContent(events: seq<WireEvent>) { exists ev :: ev in events && IsContent(ev) }

  predicate HasText(events: seq<WireEvent>) { exists ev :: ev in events && IsText(ev) }

  predicate HasStop(events: seq<WireEvent>) { exists ev :: ev in events && ev.name == "message_stop" }

  lemma {:induction false} HasNext(events: seq<WireEvent>, ev: WireEvent)
    ensures HasContent(events + [ev]) <==> HasContent(events) || IsContent(ev)
    ensures HasText(events + [ev]) <==> HasText(events) || IsText(ev)
    ensures HasStop(events + [ev]) <==> HasStop(events) || ev.name == "message_stop"
  {
    assert forall x :: x in events + [ev] <==> x in events || x == ev;
  }

  /** One event other than an error event. */
  lemma {:induction false} HandleIs(st: State, ev: WireEvent)
    requires ev.name != "error"
    ensures var r := Handle(st, ev);
            && !r.failed && (r.st.delivered <==> st.delivered || IsContent(ev))
            && (r.emitted == [] <==> !IsText(ev) && ev.name != "message_stop")
  {
  }

  /** Events without an error event never fail; content is what delivers, text and message_stop what emits. */
  lemma {:induction false} FeedIs(events: seq<WireEvent>)
    requires forall ev :: ev in events ==> ev.name != "error"
    ensures var r := Feed(FRESH, events);
            && !r.failed && (r.st.delivered <==> HasContent(events))
            && (r.emitted == [] <==> !HasText(events) && !HasStop(events))
  {
    if events == [] {
    } else {
      var before, last := events[..|events| - 1], events[|events| - 1];
      assert events == before + [last];
      FeedIs(before);
      HandleIs(Feed(FRESH, before).st, last);
      HasNext(before, last);
    }
  }

  /** Once content was delivered nothing fails any more. */
  lemma {:induction false} DeliveredStays(st: State, events: seq<WireEvent>)
    requires st.delivered
    ensures !Feed(st, events).failed && Feed(st, events).st.delivered
  {
    if events == [] {
    } else {
      var before, last := events[..|events| - 1], events[|events| - 1];
      DeliveredStays(st, before);
      if last.name != "error" {
        HandleIs(Feed(st, before).st, last);
      }
    }
  }

  /** A whole run of events, split at its first error event. */
  lemma {:induction false} FeedAll(events: seq<WireEvent>)
    ensures var h := BeforeError(events);
            var r := Feed(FRESH, events);
            && (HasContent(h) ==> !r.failed && r.st.delivered)
            && (!HasContent(h) ==>
                  && r.emitted == Feed(FRESH, h).emitted
                  && (r.failed <==> h != events) && !r.st.delivered)
            && (HasContent(h) ==> (r.emitted == [] <==> !HasText(h) && !HasStop(h) && h == events))
  {
    var h := BeforeError(events);
    FeedIs(h);
    if h != events {
      var st, e, rest := Feed(FRESH, h).st, events[|h|], events[|h| + 1..];
      assert events == h + ([e] + rest);
      FeedAppend(FRESH, h, [e] + rest);
      FeedAppend(st, [e], rest);
      FeedOne(st, e);
      if st.delivered {
        DeliveredStays(st, [e] + rest);
      } else {
        assert Feed(FRESH, h).emitted + [] == Feed(FRESH, h).emitted;
      }
    }
  }

  /** What the adapter handles, given the scanned lines: the trailing frame too, after a clean end. */
  function Handled(lines: seq<string>, scanFailed: bool, decode: string -> Option<Payload>): seq<WireEvent> {
    var g := Gather(NOTHING, lines);
    Decoded(if scanFailed then g.frames else g.frames + Flush(g.rest), decode)
  }

  lemma {:induction false} ConsumeIs(lines: seq<string>, scanFailed: bool, decode: string -> Option<Payload>)
    ensures var r := Feed(FRESH, Handled(lines, scanFailed, decode));
            var reading := Consume(lines, scanFailed, decode);
            && reading.emitted == r.emitted
            && (reading.error.Some? <==> r.failed || scanFailed || !r.st.delivered)
  {
    var g := Gather(NOTHING, lines);
    DecodedAppend(g.frames, Flush(g.rest), decode);
    FeedAppend(FRESH, Decoded(g.frames, decode), Decoded(Flush(g.rest), decode));
  }

  /**
   * After a clean end of the stream: it is an error exactly when no content came before the first error event, and
   * that error comes without any emitted chunk exactly when no message_stop came before it either.
   */
  lemma {:induction false} ContractAfterCleanEnd(lines: seq<string>, decode: string -> Option<Payload>)
    ensures var h := BeforeError(Handled(lines, false, decode));
            var r := Consume(lines, false, decode);
            && (r.error.Some? <==> !HasContent(h))
            && ((r.error.Some? ==> r.emitted == []) <==> HasContent(h) || !HasStop(h))
  {
    ConsumeIs(lines, false, decode);
    FeedAll(Handled(lines, false, decode));
    var h := BeforeError(Handled(lines, false, decode));
    FeedIs(h);
    TextIsContent(h);
  }

  /** After a scanner failure, which is always an error: nothing was emitted exactly when there was nothing to emit. */
  lemma {:induction false} ContractAfterScanFailure(lines: seq<string>, decode: string -> Option<Payload>)
    ensures var events := Handled(lines, true, decode);
            var h := BeforeError(events);
            var r := Consume(lines, true, decode);
            && r.error.Some?
            && ((r.error.Some? ==> r.emitted == []) <==>
                  !HasText(h) && !HasStop(h) && (h == events || !HasContent(h)))
  {
    ConsumeIs(lines, true, decode);
    FeedAll(Handled(lines, true, decode));
    var h := BeforeError(Handled(lines, true, decode));
    FeedIs(h);
    TextIsContent(h);
  }

  lemma {:induction false} TextIsContent(events: seq<WireEvent>)
    ensures HasText(events) ==> HasContent(events)
  {
  }

  /** A scanned stream of one frame is one event, if its payload decodes. */
  lemma {:induction false} HandledOne(f: RawFrame, scanFailed: bool, decode: string -> Option<Payload>)
    requires Printable(f) && decode(f.payload).Some?
    ensures Handled([EventLine(f)] + ([DataLine(f)] + [""]), scanFailed, decode)
         == [WireEvent(f.name, decode(f.payload).value)]
  {
    var p := Pending(f.name, [f.payload]);
    GatherFrame(f, [""]);
    assert [""][1..] == [];
    assert Gather(p, [""]) == Gathered(Flush(p) + [], NOTHING);
    assert Flush(p) == [f];
    var g := Gather(NOTHING, [EventLine(f)] + ([DataLine(f)] + [""]));
    assert g.frames == [f] && g.frames + Flush(g.rest) == [f];
    assert [f][..0] == [] && Decoded([f][..0], decode) == [];
  }

  /** A stream of a single message_stop breaks the contract: a final chunk is emitted, and an error returned. */
  lemma {:induction false} ContractCanFail(decode: string -> Option<Payload>)
    requires decode("{}").Some?
    ensures var f := RawFrame("message_stop", "{}");
            var r := Consume([EventLine(f)] + ([DataLine(f)] + [""]), false, decode);
            r.error.Some? && r.emitted != []
  {
    var f, stop := RawFrame("message_stop", "{}"), WireEvent("message_stop", decode("{}").value);
    assert Clean("message_stop") && Clean("{}");
    HandledOne(f, false, decode);
    ConsumeIs([EventLine(f)] + ([DataLine(f)] + [""]), false, decode);
    FeedOne(FRESH, stop);
  }
}
