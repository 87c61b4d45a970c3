/**
 * Printing canonical stream chunks as Anthropic events.
 *
 * `SSEWriter` is the object that owns a response; what each of its methods appends is a function of its state.
 */
module AnthropicWriter {
  import opened Chat
  import opened AnthropicWire
  import opened Collections

  datatype State = State(started: bool, textOpen: bool, index: nat, usage: Option<Usage>)

  const FRESH := State(false, false, 0, None)

  function Prompt(usage: Option<Usage>): int {
    if usage.Some? then usage.value.prompt else 0
  }

  function Completion(usage: Option<Usage>): int {
    if usage.Some? then usage.value.completion else 0
  }

  /** One tool_use block per call, from `index` on; each carries its whole arguments in one fragment. */
  function ToolBlocks(index: nat, calls: seq<ToolCall>): seq<Event>
    decreases |calls|
  {
    if calls == [] then []
    else ToolBlock(index, calls[0]) + ToolBlocks(index + 1, calls[1..])
  }

  function ToolBlock(index: nat, call: ToolCall): seq<Event> {
    [ToolStart(index, call.id, call.name), ArgumentsFragment(index, call.arguments), BlockStop(index)]
  }

  /** Everything after the text: the tool blocks and the two closing events. */
  function Tail(index: nat, calls: seq<ToolCall>, finish: string, usage: Option<Usage>): seq<Event> {
    ToolBlocks(index, calls) + [MessageDelta(StopReason(finish), Completion(usage)), MessageStop]
  }

  /** The events that put `text` on the wire, opening the text block first if need be. */
  function TextEvents(st: State, text: string): seq<Event> {
    if text == "" then []
    else (if st.textOpen then [] else [TextStart(st.index)]) + [TextFragment(st.index, text)]
  }

  function Opening(st: State, usage: Option<Usage>): seq<Event> {
    if st.started then [] else [MessageStart(Prompt(usage))]
  }

  function Latest(usage: Option<Usage>, st: State): Option<Usage> {
    if usage.Some? then usage else st.usage
  }

  function Close(open: bool, index: nat): seq<Event> {
    if open then [BlockStop(index)] else []
  }

  function Body(st: State, d: StreamDelta): seq<Event> {
    Opening(st, Latest(d.usage, st)) + TextEvents(st, d.delta)
  }

  /** The state a writer is left in, and the events it appended. */
  datatype Printed = Printed(st: State, events: seq<Event>)

  /** What one chunk prints. */
  function Emit(st: State, d: StreamDelta): Printed {
    var open := st.textOpen || d.delta != "";
    var usage := Latest(d.usage, st);
    if d.finishReason == "" then Printed(State(true, open, st.index, usage), Body(st, d))
    else
      var index := if open then st.index + 1 else st.index;
      Printed(
        State(true, false, index + |d.toolCalls|, usage),
        Body(st, d) + Close(open, st.index) + Tail(index, d.toolCalls, d.finishReason, d.usage))
  }

  /** The events of a completed response; a zero usage counts as none, and leaves the last one seen in force. */
  function Burst(st: State, resp: ChatResponse): seq<Event> {
    var usage := Latest(if resp.usage == NO_USAGE then None else Some(resp.usage), st);
    var text := resp.content != "";
    Opening(st, usage) + TextEvents(st, resp.content) + Close(text, st.index)
    + Tail(if text then st.index + 1 else st.index, resp.toolCalls, resp.finishReason, usage)
  }

  /** What a run of chunks prints. */
  function EmitAll(st: State, deltas: seq<StreamDelta>): Printed {
    if deltas == [] then Printed(st, [])
    else
      var before := EmitAll(st, deltas[..|deltas| - 1]);
      var last := Emit(before.st, deltas[|deltas| - 1]);
      Printed(last.st, before.events + last.events)
  }

  class SSEWriter {
    var started: bool
    var textOpen: bool
    var index: nat
    var usage: Option<Usage>
    var out: seq<Event>

    function View(): State
      reads this
    {
      State(started, textOpen, index, usage)
    }

    constructor ()
      ensures View() == FRESH && out == []
    {
      started, textOpen, index, usage, out := false, false, 0, None, [];
    }

    method EmitMessageStart()
      modifies this
      ensures View() == old(View()).(started := true)
      ensures out == old(out) + if old(started) then [] else [MessageStart(Prompt(usage))]
    {
      if started {
        return;
      }
      started := true;
      var input := 0;
      if usage.Some? {
        input := usage.value.prompt;
      }
      out := out + [MessageStart(input)];
    }

    method OpenTextBlock()
      modifies this
      ensures View() == old(View()).(textOpen := true)
      ensures out == old(out) + if old(textOpen) then [] else [TextStart(index)]
    {
      if textOpen {
        return;
      }
      textOpen := true;
      out := out + [TextStart(index)];
    }

    method EmitText(text: string)
      modifies this`out
      ensures out == old(out) + [TextFragment(index, text)]
    {
      out := out + [TextFragment(index, text)];
    }

    method CloseTextBlock()
      modifies this
      ensures View() == if old(textOpen) then old(View()).(textOpen := false, index := old(index) + 1) else old(View())
      ensures out == old(out) + if old(textOpen) then [BlockStop(old(index))] else []
    {
      if !textOpen {
        return;
      }
      textOpen := false;
      index := index + 1;
      out := out + [BlockStop(index - 1)];
    }

    method ToolUseBlocks(calls: seq<ToolCall>)
      modifies this
      ensures View() == old(View()).(index := old(index) + |calls|)
      ensures out == old(out) + ToolBlocks(old(index), calls)
    {
      for i := 0 to |calls|
        invariant View() == old(View()).(index := old(index) + i)
        invariant out + ToolBlocks(index, calls[i..]) == old(out) + ToolBlocks(old(index), calls)
      {
        var tc := calls[i];
        assert calls[i..][1..] == calls[i + 1..];
        ghost var before := out;
        out := out + [ToolStart(index, tc.id, tc.name)];
        out := out + [ArgumentsFragment(index, tc.arguments)];
        index := index + 1;
        out := out + [BlockStop(index - 1)];
        assert out == before + ToolBlock(index - 1, tc);
      }
    }

    method EmitMessageDelta(stopReason: string, u: Option<Usage>)
      modifies this`out
      ensures out == old(out) + [MessageDelta(stopReason, Completion(u))]
    {
      var output := 0;
      if u.Some? {
        output := u.value.completion;
      }
      out := out + [MessageDelta(stopReason, output)];
    }

    method EmitMessageStop()
      modifies this`out
      ensures out == old(out) + [MessageStop]
    {
      out := out + [MessageStop];
    }

    method EmitError(message: string)
      modifies this`out
      ensures out == old(out) + [ErrorEvent(message)]
    {
      out := out + [ErrorEvent(message)];
    }

    method EmitDelta(d: StreamDelta)
      modifies this
      ensures View() == Emit(old(View()), d).st
      ensures out == old(out) + Emit(old(View()), d).events
    {
      ghost var st, printed := View(), out;
      if d.usage.Some? {
        usage := d.usage;
      }
      EmitMessageStart();
      if d.delta != "" {
        OpenTextBlock();
        EmitText(d.delta);
      }
      assert out == printed + Body(st, d);
      if d.finishReason == "" {
        return;
      }
      CloseTextBlock();
      ghost var tail := Tail(index, d.toolCalls, d.finishReason, d.usage);
      Finish(d.toolCalls, d.finishReason, d.usage);
      Regroup4(printed, Body(st, d), Close(st.textOpen || d.delta != "", st.index), tail);
    }

    /** The tail of a message: its tool blocks and the two closing events. */
    method Finish(calls: seq<ToolCall>, finish: string, u: Option<Usage>)
      modifies this
      ensures View() == old(View()).(index := old(index) + |calls|)
      ensures out == old(out) + Tail(old(index), calls, finish, u)
    {
      ToolUseBlocks(calls);
      EmitMessageDelta(StopReason(finish), u);
      EmitMessageStop();
    }

    method WriteResponseBurst(resp: ChatResponse)
      modifies this
      ensures out == old(out) + Burst(old(View()), resp)
    {
      ghost var st, printed := View(), out;
      if resp.usage != NO_USAGE {
        usage := Some(resp.usage);
      }
      EmitMessageStart();
      if resp.content != "" {
        OpenTextBlock();
        EmitText(resp.content);
        CloseTextBlock();
      }
      ghost var before := Opening(st, usage) + TextEvents(st, resp.content) + Close(resp.content != "", st.index);
      assert out == printed + before;
      ghost var tail := Tail(index, resp.toolCalls, resp.finishReason, usage);
      Finish(resp.toolCalls, resp.finishReason, usage);
      Regroup(printed, before, tail);
    }

    method Replay(deltas: seq<StreamDelta>)
      modifies this
      ensures View() == EmitAll(old(View()), deltas).st
      ensures out == old(out) + EmitAll(old(View()), deltas).events
    {
      for i := 0 to |deltas|
        invariant View() == EmitAll(old(View()), deltas[..i]).st
        invariant out == old(out) + EmitAll(old(View()), deltas[..i]).events
      {
        assert deltas[..i + 1][..i] == deltas[..i];
        ghost var before := EmitAll(old(View()), deltas[..i]);
        EmitDelta(deltas[i]);
        Regroup(old(out), before.events, Emit(before.st, deltas[i]).events);
      }
      assert deltas[..|deltas|] == deltas;
    }
  }
}
