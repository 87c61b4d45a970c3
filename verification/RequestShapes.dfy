/** What each message of a conversation becomes in a Gemini and in an Anthropic request, field by field. */
module RequestShapes {
  import opened Chat
  import opened Collections
  import opened Translation

  // ---- Gemini ---------------------------------------------------------------------------------

  /** A call's part: its id and name, and the object its arguments decode to; {} if they are none, null if null. */
  ghost predicate ShowsCall(part: Part, call: ToolCall, decode: string -> Decoded) {
    && part.CallPart? && part.id == call.id && part.name == call.name
    && (call.arguments == "" || decode(call.arguments) == Fails ==> part.arguments == Object("{}"))
    && (call.arguments != "" && decode(call.arguments) == Nothing ==> part.arguments == Null)
    && (call.arguments != "" ==>
          forall text :: decode(call.arguments) == Fields(text) ==> part.arguments == Object(text))
  }

  /** No call of the conversation has this id. */
  ghost predicate Uncalled(messages: seq<Message>, id: string) {
    forall j: nat, k: nat :: !CalledAt(messages, j, k, id)
  }

  /**
   * A result's part: its id, the name of the first call with that id or else a placeholder, and its content as the
   * object it decodes to, or wrapped.
   */
  ghost predicate ShowsResult(part: Part, m: Message, all: seq<Message>, decode: string -> Decoded) {
    && part.ResponsePart? && part.id == m.toolCallId
    && (m.toolCallId == "" || Uncalled(all, m.toolCallId) ==> part.name == "functionCallResponse")
    && (m.toolCallId != "" ==>
          forall j: nat, k: nat ::
            FirstCalledAt(all, j, k, m.toolCallId) ==> part.name == all[j].toolCalls[k].name)
    && (m.content == "" || !decode(m.content).Fields? ==> part.response == Result(m.content))
    && (m.content != "" ==> forall text :: decode(m.content) == Fields(text) ==> part.response == Object(text))
  }

  /**
   * A message's content. Only the assistant speaks as the model. A result is one part; a message without calls is its
   * text, even an empty one; with calls its text comes first, if it has any, and then one part for each call, in order.
   */
  ghost predicate GeminiShows(content: Content, m: Message, all: seq<Message>, decode: string -> Decoded) {
    var n := if m.content == "" then 0 else 1;
    && content.role == (if m.role == Assistant then "model" else "user")
    && (m.role == Tool ==> |content.parts| == 1 && ShowsResult(content.parts[0], m, all, decode))
    && (m.role != Tool && m.toolCalls == [] ==> content.parts == [TextPart(m.content)])
    && (m.role != Tool && m.toolCalls != [] ==>
          && |content.parts| == n + |m.toolCalls|
          && (n == 1 ==> content.parts[0] == TextPart(m.content))
          && forall k :: 0 <= k < |m.toolCalls| ==> ShowsCall(content.parts[n + k], m.toolCalls[k], decode))
  }

  lemma {:induction false} NameIsShown(messages: seq<Message>, id: string)
    ensures id == "" || Uncalled(messages, id) ==> NameFor(messages, id) == "functionCallResponse"
    ensures id != "" ==>
              forall j: nat, k: nat ::
                FirstCalledAt(messages, j, k, id) ==> NameFor(messages, id) == messages[j].toolCalls[k].name
  {
    if id == "" {
      NameForNone(messages);
    } else if Uncalled(messages, id) {
      NameForUncalled(messages, id);
    }
    forall j: nat, k: nat | id != "" && FirstCalledAt(messages, j, k, id)
      ensures NameFor(messages, id) == messages[j].toolCalls[k].name
    {
      NameForIsFirst(messages, id, j, k);
    }
  }

  lemma {:induction false} NameForUncalled(messages: seq<Message>, id: string)
    requires Uncalled(messages, id)
    ensures NameFor(messages, id) == NO_NAME
  {
    if messages == [] {
    } else {
      var calls := messages[0].toolCalls;
      forall i | 0 <= i < |calls|
        ensures calls[i].id != id
      {
        assert !CalledAt(messages, 0, i, id);
      }
      NameInNone(calls, id);
      forall j: nat, k: nat
        ensures !CalledAt(messages[1..], j, k, id)
      {
        assert !CalledAt(messages, j + 1, k, id);
      }
      NameForUncalled(messages[1..], id);
    }
  }

  lemma {:induction false} CallsAreShown(m: Message, all: seq<Message>, decode: string -> Decoded)
    requires m.role != Tool && m.toolCalls != []
    ensures var n, parts := if m.content == "" then 0 else 1, GeminiParts(m, all, decode);
            && |parts| == n + |m.toolCalls|
            && (n == 1 ==> parts[0] == TextPart(m.content))
            && forall k :: 0 <= k < |m.toolCalls| ==> ShowsCall(parts[n + k], m.toolCalls[k], decode)
  {
    var n, parts := if m.content == "" then 0 else 1, GeminiParts(m, all, decode);
    CallPartsAre(m.toolCalls, decode);
    forall k | 0 <= k < |m.toolCalls|
      ensures ShowsCall(parts[n + k], m.toolCalls[k], decode)
    {
      assert parts[n + k] == CallParts(m.toolCalls, decode)[k];
    }
  }

  /** Each message of a conversation is shown to Gemini, in its place, as itself. */
  lemma {:induction false} GeminiShowsAll(messages: seq<Message>, decode: string -> Decoded)
    ensures |GeminiContents(messages, messages, decode)| == |messages|
    ensures forall i :: 0 <= i < |messages| ==>
              GeminiShows(GeminiContents(messages, messages, decode)[i], messages[i], messages, decode)
  {
    ContentsAt(messages, messages, decode);
    forall i | 0 <= i < |messages|
      ensures GeminiShows(GeminiContents(messages, messages, decode)[i], messages[i], messages, decode)
    {
      var m := messages[i];
      if m.role == Tool {
        NameIsShown(messages, m.toolCallId);
      } else if m.toolCalls != [] {
        CallsAreShown(m, messages, decode);
      }
    }
  }

  // ---- Anthropic ------------------------------------------------------------------------------

  /** A call's block: its id and name, and the object its arguments decode to, or {}. */
  ghost predicate ShowsUse(block: Block, call: ToolCall, decode: string -> Decoded) {
    && block.ToolUse? && block.id == call.id && block.name == call.name
    && (!decode(call.arguments).Fields? ==> block.input == Object("{}"))
    && (forall text :: decode(call.arguments) == Fields(text) ==> block.input == Object(text))
  }

  /**
   * A message on the wire. A result is one tool_result of the user; a message without calls is its plain text; with
   * calls its text is a block, if it has any, and then each call, in order.
   */
  ghost predicate AnthropicShows(wire: Wire, m: Message, decode: string -> Decoded) {
    var n := if m.content == "" then 0 else 1;
    && wire.role == (if m.role == Assistant then "assistant" else "user")
    && (m.role == Tool ==> wire.Blocks? && wire.blocks == [ToolResult(m.toolCallId, m.content)])
    && (m.role != Tool && m.toolCalls == [] ==> wire.Plain? && wire.text == m.content)
    && (m.role != Tool && m.toolCalls != [] ==>
          && wire.Blocks? && |wire.blocks| == n + |m.toolCalls|
          && (n == 1 ==> wire.blocks[0] == TextBlock(m.content))
          && forall k :: 0 <= k < |m.toolCalls| ==> ShowsUse(wire.blocks[n + k], m.toolCalls[k], decode))
  }

  /** Only these roles are sent as messages. */
  predicate Sent(r: Role) {
    r == User || r == Assistant || r == Tool
  }

  lemma {:induction false} MessageIsShown(m: Message, decode: string -> Decoded)
    ensures AnthropicMessage(m, decode).Some? <==> Sent(m.role)
    ensures Sent(m.role) ==> AnthropicShows(AnthropicMessage(m, decode).value, m, decode)
  {
    UseBlocksAre(m.toolCalls, decode);
    if Sent(m.role) && m.role != Tool && m.toolCalls != [] {
      var n, blocks := if m.content == "" then 0 else 1, AnthropicMessage(m, decode).value.blocks;
      forall k | 0 <= k < |m.toolCalls|
        ensures ShowsUse(blocks[n + k], m.toolCalls[k], decode)
      {
        assert blocks[n + k] == UseBlocks(m.toolCalls, decode)[k];
      }
    }
  }

  /** The messages with a role that is sent are shown to Anthropic, all of them, in order, each as itself. */
  lemma {:induction false} AnthropicShowsAll(messages: seq<Message>, decode: string -> Decoded)
    returns (at: seq<nat>)
    ensures Ascends(at)
    ensures forall k: nat :: k in at <==> k < |messages| && Sent(messages[k].role)
    ensures |AnthropicMessages(messages, decode)| == |at|
    ensures forall i :: 0 <= i < |at| ==>
              at[i] < |messages| && AnthropicShows(AnthropicMessages(messages, decode)[i], messages[at[i]], decode)
  {
    if messages == [] {
      at := [];
    } else {
      var n := |messages| - 1;
      at := AnthropicShowsAll(messages[..n], decode);
      MessageIsShown(messages[n], decode);
      if Sent(messages[n].role) {
        AscendsNext(at, n);
        at := at + [n];
      }
    }
  }
}
