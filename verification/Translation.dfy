/** Conversations in the Gemini and Anthropic request shapes: calls and their results stay paired, and order is kept. */
module Translation {
  import opened Chat
  import opened Collections

  // ---- JSON objects ---------------------------------------------------------------------------

  /** What decoding a JSON text into an object gives: an error, nothing, or the object's fields. */
  datatype Decoded = Fails | Nothing | Fields(text: string)

  /** An object on the wire. `Result` wraps a text that is no object. */
  datatype Json = Object(text: string) | Null | Result(content: string)

  const EMPTY := Object("{}")

  // ---- Gemini ---------------------------------------------------------------------------------

  datatype Part =
    | TextPart(text: string)
    | CallPart(id: string, name: string, arguments: Json)
    | ResponsePart(id: string, name: string, response: Json)

  datatype Content = Content(role: string, parts: seq<Part>)

  const NO_NAME := "functionCallResponse"

  /** The name of the first call with this id among `calls`. */
  function NameIn(calls: seq<ToolCall>, id: string): Option<string> {
    if calls == [] then None
    else if calls[0].id != "" && calls[0].id == id then Some(calls[0].name)
    else NameIn(calls[1..], id)
  }

  /** The name of the first call with this id in the whole conversation, or a placeholder. */
  function NameFor(messages: seq<Message>, id: string): string {
    if messages == [] then NO_NAME
    else
      var here := NameIn(messages[0].toolCalls, id);
      if here.Some? then here.value else NameFor(messages[1..], id)
  }

  function GeminiRole(r: Role): string {
    if r.Assistant? then "model" else "user"
  }

  /** Arguments that are no object become an empty one; a JSON null stays null. */
  function ToolArguments(raw: string, decode: string -> Decoded): Json {
    if raw == "" then EMPTY
    else
      match decode(raw)
      case Fails => EMPTY
      case Nothing => Null
      case Fields(text) => Object(text)
  }

  /** A result that is an object is sent as it is, any other is wrapped. */
  function ToolResponse(content: string, decode: string -> Decoded): Json {
    if content == "" then Result(content)
    else
      match decode(content)
      case Fields(text) => Object(text)
      case _ => Result(content)
  }

  function CallPartOf(call: ToolCall, decode: string -> Decoded): Part {
    CallPart(call.id, call.name, ToolArguments(call.arguments, decode))
  }

  function CallParts(calls: seq<ToolCall>, decode: string -> Decoded): seq<Part> {
    if calls == [] then []
    else CallParts(calls[..|calls| - 1], decode) + [CallPartOf(calls[|calls| - 1], decode)]
  }

  function GeminiParts(m: Message, all: seq<Message>, decode: string -> Decoded): seq<Part> {
    if m.role.Tool? then [ResponsePart(m.toolCallId, NameFor(all, m.toolCallId), ToolResponse(m.content, decode))]
    else if m.toolCalls == [] then [TextPart(m.content)]
    else (if m.content == "" then [] else [TextPart(m.content)]) + CallParts(m.toolCalls, decode)
  }

  function GeminiContents(messages: seq<Message>, all: seq<Message>, decode: string -> Decoded)
    : (contents: seq<Content>)
    ensures |contents| == |messages|
  {
    if messages == [] then []
    else
      var last := messages[|messages| - 1];
      GeminiContents(messages[..|messages| - 1], all, decode)
      + [Content(GeminiRole(last.role), GeminiParts(last, all, decode))]
  }

  method ToolNameFor(m: Message, messages: seq<Message>) returns (name: string)
    ensures name == NameFor(messages, m.toolCallId)
  {
    for i := 0 to |messages|
      invariant NameFor(messages, m.toolCallId) == NameFor(messages[i..], m.toolCallId)
    {
      var calls := messages[i].toolCalls;
      for k := 0 to |calls|
        invariant NameIn(calls, m.toolCallId) == NameIn(calls[k..], m.toolCallId)
      {
        if calls[k].id != "" && calls[k].id == m.toolCallId {
          return calls[k].name;
        }
      }
    }
    return NO_NAME;
  }

  method BuildCallParts(m: Message, decode: string -> Decoded) returns (parts: seq<Part>)
    ensures parts == (if m.content == "" then [] else [TextPart(m.content)]) + CallParts(m.toolCalls, decode)
  {
    parts := if m.content == "" then [] else [TextPart(m.content)];
    ghost var text := parts;
    for k := 0 to |m.toolCalls|
      invariant parts == text + CallParts(m.toolCalls[..k], decode)
    {
      var tc := m.toolCalls[k];
      assert m.toolCalls[..k + 1][..k] == m.toolCalls[..k];
      parts := parts + [CallPart(tc.id, tc.name, ToolArguments(tc.arguments, decode))];
    }
    WholePrefix(m.toolCalls);
  }

  method BuildGeminiContents(messages: seq<Message>, decode: string -> Decoded) returns (contents: seq<Content>)
    ensures contents == GeminiContents(messages, messages, decode)
  {
    contents := [];
    for i := 0 to |messages|
      invariant contents == GeminiContents(messages[..i], messages, decode)
    {
      var m := messages[i];
      var parts;
      if m.role.Tool? {
        var name := ToolNameFor(m, messages);
        parts := [ResponsePart(m.toolCallId, name, ToolResponse(m.content, decode))];
      } else if |m.toolCalls| == 0 {
        parts := [TextPart(m.content)];
      } else {
        parts := BuildCallParts(m, decode);
      }
      assert messages[..i + 1][..i] == messages[..i];
      contents := contents + [Content(GeminiRole(m.role), parts)];
    }
    WholePrefix(messages);
  }

  // ---- Anthropic ------------------------------------------------------------------------------

  datatype Block =
    | TextBlock(text: string)
    | ToolUse(id: string, name: string, input: Json)
    | ToolResult(toolUseId: string, content: string)

  /** A message's content is a plain string or a list of blocks. */
  datatype Wire = Plain(role: string, text: string) | Blocks(role: string, blocks: seq<Block>)

  /** Roles Anthropic does not accept among the messages have no wire role. */
  function AnthropicRole(r: Role): string {
    match r
    case User => "user"
    case Assistant => "assistant"
    case Tool => "user"
    case _ => ""
  }

  /** Arguments that are no object, null included, become an empty one. */
  function ToolInput(raw: string, decode: string -> Decoded): Json {
    match decode(raw)
    case Fields(text) => Object(text)
    case _ => EMPTY
  }

  function UseBlockOf(call: ToolCall, decode: string -> Decoded): Block {
    ToolUse(call.id, call.name, ToolInput(call.arguments, decode))
  }

  function UseBlocks(calls: seq<ToolCall>, decode: string -> Decoded): seq<Block> {
    if calls == [] then []
    else UseBlocks(calls[..|calls| - 1], decode) + [UseBlockOf(calls[|calls| - 1], decode)]
  }

  function AnthropicMessage(m: Message, decode: string -> Decoded): Option<Wire> {
    var role := AnthropicRole(m.role);
    if role == "" then None
    else if m.role.Tool? then Some(Blocks(role, [ToolResult(m.toolCallId, m.content)]))
    else if m.toolCalls != [] then
      Some(Blocks(role, (if m.content == "" then [] else [TextBlock(m.content)]) + UseBlocks(m.toolCalls, decode)))
    else Some(Plain(role, m.content))
  }

  function AnthropicMessages(messages: seq<Message>, decode: string -> Decoded): seq<Wire> {
    if messages == [] then []
    else
      var wire := AnthropicMessage(messages[|messages| - 1], decode);
      AnthropicMessages(messages[..|messages| - 1], decode) + if wire.Some? then [wire.value] else []
  }

  method ToolUseBlocks(m: Message, decode: string -> Decoded) returns (blocks: seq<Block>)
    ensures blocks == (if m.content == "" then [] else [TextBlock(m.content)]) + UseBlocks(m.toolCalls, decode)
  {
    blocks := if m.content == "" then [] else [TextBlock(m.content)];
    ghost var text := blocks;
    for k := 0 to |m.toolCalls|
      invariant blocks == text + UseBlocks(m.toolCalls[..k], decode)
    {
      var tc := m.toolCalls[k];
      assert m.toolCalls[..k + 1][..k] == m.toolCalls[..k];
      blocks := blocks + [ToolUse(tc.id, tc.name, ToolInput(tc.arguments, decode))];
    }
    WholePrefix(m.toolCalls);
  }

  method BuildAnthropicMessages(messages: seq<Message>, decode: string -> Decoded) returns (out: seq<Wire>)
    ensures out == AnthropicMessages(messages, decode)
  {
    out := [];
    for i := 0 to |messages|
      invariant out == AnthropicMessages(messages[..i], decode)
    {
      assert messages[..i + 1][..i] == messages[..i];
      var m := messages[i];
      var role := AnthropicRole(m.role);
      if role == "" {
        continue;
      }
      if m.role.Tool? {
        out := out + [Blocks(role, [ToolResult(m.toolCallId, m.content)])];
      } else if |m.toolCalls| > 0 {
        var blocks := ToolUseBlocks(m, decode);
        out := out + [Blocks(role, blocks)];
      } else {
        out := out + [Plain(role, m.content)];
      }
    }
    WholePrefix(messages);
  }

  // ---- calls and their results ----------------------------------------------------------------

  datatype Target = Gemini | Anthropic {
    /** Whether the calls of a message with this role are sent. */
    predicate Carries(r: Role) {
      match this
      case Gemini => !r.Tool?
      case Anthropic => r.User? || r.Assistant?
    }
  }

  ghost predicate CalledAt(messages: seq<Message>, j: nat, k: nat, id: string) {
    j < |messages| && k < |messages[j].toolCalls| && messages[j].toolCalls[k].id == id
  }

  /** The message at `i` answers the call `k` of the earlier message `j`. Any id will do, even the empty one. */
  ghost predicate Answers(target: Target, messages: seq<Message>, i: nat, j: nat, k: nat) {
    && i < |messages| && j < i && target.Carries(messages[j].role)
    && CalledAt(messages, j, k, messages[i].toolCallId)
  }

  ghost predicate Answered(target: Target, messages: seq<Message>, i: nat) {
    exists j: nat, k: nat :: Answers(target, messages, i, j, k)
  }

  // ---- Gemini: the name of a result -----------------------------------------------------------

  lemma {:induction false} NameInIs(calls: seq<ToolCall>, id: string, k: nat)
    requires k < |calls| && calls[k].id == id != ""
    requires forall i :: 0 <= i < k ==> calls[i].id != id
    ensures NameIn(calls, id) == Some(calls[k].name)
  {
    if k == 0 {
    } else {
      NameInIs(calls[1..], id, k - 1);
    }
  }

  lemma {:induction false} NameInNone(calls: seq<ToolCall>, id: string)
    requires id == "" || forall i :: 0 <= i < |calls| ==> calls[i].id != id
    ensures NameIn(calls, id) == None
  {
    if calls == [] {
    } else {
      NameInNone(calls[1..], id);
    }
  }

  /** No call with this id stands before the call `k` of message `j`. */
  ghost predicate FirstCalledAt(messages: seq<Message>, j: nat, k: nat, id: string) {
    && CalledAt(messages, j, k, id)
    && (forall j': nat, k': nat :: CalledAt(messages, j', k', id) ==> j < j' || (j == j' && k <= k'))
  }

  /** The name a result gets is that of the first call with its id, wherever in the conversation that stands. */
  lemma {:induction false} NameForIsFirst(messages: seq<Message>, id: string, j: nat, k: nat)
    requires id != "" && FirstCalledAt(messages, j, k, id)
    ensures NameFor(messages, id) == messages[j].toolCalls[k].name
  {
    var calls, rest := messages[0].toolCalls, messages[1..];
    if j == 0 {
      assert forall i: nat :: i < k && calls[i].id == id ==> CalledAt(messages, 0, i, id);
      NameInIs(calls, id, k);
    } else {
      assert forall i: nat :: i < |calls| && calls[i].id == id ==> CalledAt(messages, 0, i, id);
      NameInNone(calls, id);
      assert forall j': nat, k': nat :: CalledAt(rest, j', k', id) ==> CalledAt(messages, j' + 1, k', id);
      assert CalledAt(rest, j - 1, k, id);
      NameForIsFirst(rest, id, j - 1, k);
    }
  }

  /** A result without an id always gets the placeholder. */
  lemma {:induction false} NameForNone(messages: seq<Message>)
    ensures NameFor(messages, "") == NO_NAME
  {
    if messages == [] {
    } else {
      NameInNone(messages[0].toolCalls, "");
      NameForNone(messages[1..]);
    }
  }

  /** Before any call with an id, or at it, stands the first one. */
  lemma {:induction false} SomeFirst(messages: seq<Message>, id: string, j: nat, k: nat) returns (j0: nat, k0: nat)
    requires CalledAt(messages, j, k, id)
    ensures FirstCalledAt(messages, j0, k0, id) && j0 <= j
    decreases j, k
  {
    if j', k': nat :| CalledAt(messages, j', k', id) && !(j < j' || (j == j' && k <= k')) {
      j0, k0 := SomeFirst(messages, id, j', k');
    } else {
      j0, k0 := j, k;
    }
  }

  // ---- Gemini: pairs --------------------------------------------------------------------------

  /** Contents stand in message order, one for each message. */
  lemma {:induction false} ContentsAt(messages: seq<Message>, all: seq<Message>, decode: string -> Decoded)
    ensures forall i :: 0 <= i < |messages| ==>
              GeminiContents(messages, all, decode)[i] ==
              Content(GeminiRole(messages[i].role), GeminiParts(messages[i], all, decode))
  {
    if messages == [] {
    } else {
      ContentsAt(messages[..|messages| - 1], all, decode);
    }
  }

  lemma {:induction false} CallPartsAre(calls: seq<ToolCall>, decode: string -> Decoded)
    ensures |CallParts(calls, decode)| == |calls|
    ensures forall k :: 0 <= k < |calls| ==> CallParts(calls, decode)[k] == CallPartOf(calls[k], decode)
  {
    if calls == [] {
    } else {
      CallPartsAre(calls[..|calls| - 1], decode);
    }
  }

  /** The parts of a message that name a function are its calls, if its calls are sent. */
  lemma {:induction false} CallSent(m: Message, all: seq<Message>, decode: string -> Decoded, id: string, name: string)
    ensures (exists arguments: Json :: CallPart(id, name, arguments) in GeminiParts(m, all, decode)) <==>
            Gemini.Carries(m.role)
            && exists k: nat :: k < |m.toolCalls| && m.toolCalls[k].id == id && m.toolCalls[k].name == name
  {
    CallPartsAre(m.toolCalls, decode);
    var parts := GeminiParts(m, all, decode);
    if arguments: Json :| CallPart(id, name, arguments) in parts {
      assert CallPart(id, name, arguments) in CallParts(m.toolCalls, decode);
      var k :| 0 <= k < |m.toolCalls| && CallParts(m.toolCalls, decode)[k] == CallPart(id, name, arguments);
    }
    if k: nat :| Gemini.Carries(m.role) && k < |m.toolCalls| && m.toolCalls[k].id == id && m.toolCalls[k].name == name {
      assert CallPartOf(m.toolCalls[k], decode) in CallParts(m.toolCalls, decode);
      assert CallPartOf(m.toolCalls[k], decode) in parts;
    }
  }

  /** The function response of message `i` has an earlier function call with the same id and the same name. */
  ghost predicate GeminiPaired(messages: seq<Message>, i: nat, decode: string -> Decoded)
    requires i < |messages|
  {
    var id := messages[i].toolCallId;
    exists j: nat, arguments: Json ::
      j < i && CallPart(id, NameFor(messages, id), arguments) in GeminiContents(messages, messages, decode)[j].parts
  }

  /** In general: it must answer an earlier call that has the name the result gets. */
  lemma {:induction false} GeminiPairIsCall(messages: seq<Message>, i: nat, decode: string -> Decoded)
    requires i < |messages|
    ensures GeminiPaired(messages, i, decode) <==>
            exists j: nat, k: nat :: Answers(Gemini, messages, i, j, k)
                                     && messages[j].toolCalls[k].name == NameFor(messages, messages[i].toolCallId)
  {
    var id, contents := messages[i].toolCallId, GeminiContents(messages, messages, decode);
    var name := NameFor(messages, id);
    ContentsAt(messages, messages, decode);
    if j: nat, arguments: Json :| j < i && CallPart(id, name, arguments) in contents[j].parts {
      assert CallPart(id, name, arguments) in GeminiParts(messages[j], messages, decode);
      CallSent(messages[j], messages, decode, id, name);
      var k: nat :| k < |messages[j].toolCalls| && messages[j].toolCalls[k].id == id
                    && messages[j].toolCalls[k].name == name;
      assert Answers(Gemini, messages, i, j, k);
    }
    if j: nat, k: nat :| Answers(Gemini, messages, i, j, k) && messages[j].toolCalls[k].name == name {
      CallSent(messages[j], messages, decode, id, name);
      var arguments: Json :| CallPart(id, name, arguments) in GeminiParts(messages[j], messages, decode);
      assert CallPart(id, name, arguments) in contents[j].parts;
    }
  }

  /** No tool message makes a call with this id itself. */
  ghost predicate NoToolCalls(messages: seq<Message>, id: string) {
    forall j: nat, k: nat :: CalledAt(messages, j, k, id) ==> !messages[j].role.Tool?
  }

  /**
   * Gemini: unless tool messages make calls, a function response with an id keeps its pair if and only if an earlier
   * call has that id, however often it is used; one without an id, if and only if an earlier call without an id happens
   * to be named like the placeholder.
   */
  lemma {:induction false} GeminiKeepsPairs(messages: seq<Message>, i: nat, decode: string -> Decoded)
    requires i < |messages| && NoToolCalls(messages, messages[i].toolCallId)
    ensures GeminiPaired(messages, i, decode) <==>
            if messages[i].toolCallId != "" then Answered(Gemini, messages, i)
            else exists j: nat, k: nat ::
                   Answers(Gemini, messages, i, j, k) && messages[j].toolCalls[k].name == NO_NAME
  {
    var id := messages[i].toolCallId;
    GeminiPairIsCall(messages, i, decode);
    if id == "" {
      NameForNone(messages);
    } else if j: nat, k: nat :| Answers(Gemini, messages, i, j, k) {
      var j0, k0 := SomeFirst(messages, id, j, k);
      NameForIsFirst(messages, id, j0, k0);
      assert Answers(Gemini, messages, i, j0, k0);
    }
  }

  /** A call and its result. */
  function Exchange(call: ToolCall, result: string): seq<Message> {
    [Message(Assistant, "", "", [call], ""), Message(Tool, result, call.id, [], "")]
  }

  /** A call without an id, such as Gemini's own, loses its pair unless it is named like the placeholder. */
  lemma {:induction false} IdlessPairIsLost(name: string, arguments: string, result: string, decode: string -> Decoded)
    ensures var messages := Exchange(ToolCall("", name, arguments), result);
            && Answered(Gemini, messages, 1)
            && (GeminiPaired(messages, 1, decode) <==> name == NO_NAME)
  {
    var messages := Exchange(ToolCall("", name, arguments), result);
    assert Answers(Gemini, messages, 1, 0, 0);
    GeminiKeepsPairs(messages, 1, decode);
  }

  /** A tool message that makes a call of its own can take the name away from a later pair. */
  lemma {:induction false} ToolCallTakesName(decode: string -> Decoded)
    ensures var messages := [Message(Tool, "", "0", [ToolCall("1", "g", "")], "")]
                            + Exchange(ToolCall("1", "f", ""), "r");
            Answered(Gemini, messages, 2) && !GeminiPaired(messages, 2, decode)
  {
    var messages := [Message(Tool, "", "0", [ToolCall("1", "g", "")], "")] + Exchange(ToolCall("1", "f", ""), "r");
    assert Answers(Gemini, messages, 2, 1, 0);
    assert FirstCalledAt(messages, 0, 0, "1");
    NameForIsFirst(messages, "1", 0, 0);
    GeminiPairIsCall(messages, 2, decode);
  }

  // ---- Anthropic: order and pairs -------------------------------------------------------------

  /** Where a message stands among the translated ones. */
  function Place(messages: seq<Message>, i: nat, decode: string -> Decoded): nat
    requires i <= |messages|
  {
    |AnthropicMessages(messages[..i], decode)|
  }

  lemma {:induction false} AnthropicAppend(a: seq<Message>, b: seq<Message>, decode: string -> Decoded)
    ensures AnthropicMessages(a + b, decode) == AnthropicMessages(a, decode) + AnthropicMessages(b, decode)
    decreases |b|
  {
    if b == [] {
      assert a + b == a;
    } else {
      assert (a + b)[..|a + b| - 1] == a + b[..|b| - 1];
      AnthropicAppend(a, b[..|b| - 1], decode);
    }
  }

  /** Kept messages stand in message order: each at its place, and places grow. */
  lemma {:induction false} AnthropicKeepsOrder(messages: seq<Message>, i: nat, decode: string -> Decoded)
    requires i < |messages|
    ensures var wire, at := AnthropicMessage(messages[i], decode), Place(messages, i, decode);
            && Place(messages, i + 1, decode) == at + (if wire.Some? then 1 else 0)
            && (wire.Some? ==>
                  at < |AnthropicMessages(messages, decode)| && AnthropicMessages(messages, decode)[at] == wire.value)
  {
    assert messages[..i + 1][..i] == messages[..i];
    assert messages == messages[..i + 1] + messages[i + 1..];
    AnthropicAppend(messages[..i + 1], messages[i + 1..], decode);
  }

  lemma {:induction false} PlacesGrow(messages: seq<Message>, i: nat, j: nat, decode: string -> Decoded)
    requires j <= i <= |messages|
    ensures Place(messages, j, decode) <= Place(messages, i, decode)
    decreases i
  {
    if j == i {
    } else {
      AnthropicKeepsOrder(messages, i - 1, decode);
      PlacesGrow(messages, i - 1, j, decode);
    }
  }

  /** Every place is some kept message's. */
  lemma {:induction false} PlaceIsTaken(messages: seq<Message>, i: nat, at: nat, decode: string -> Decoded)
    returns (j: nat)
    requires i <= |messages| && at < Place(messages, i, decode)
    ensures j < i && Place(messages, j, decode) == at && AnthropicMessage(messages[j], decode).Some?
  {
    AnthropicKeepsOrder(messages, i - 1, decode);
    if at < Place(messages, i - 1, decode) {
      j := PlaceIsTaken(messages, i - 1, at, decode);
    } else {
      j := i - 1;
    }
  }

  lemma {:induction false} UseBlocksAre(calls: seq<ToolCall>, decode: string -> Decoded)
    ensures |UseBlocks(calls, decode)| == |calls|
    ensures forall k :: 0 <= k < |calls| ==> UseBlocks(calls, decode)[k] == UseBlockOf(calls[k], decode)
  {
    if calls == [] {
    } else {
      UseBlocksAre(calls[..|calls| - 1], decode);
    }
  }

  /** The wire message at a place has a tool_use block of this id exactly when its message has such a call. */
  lemma {:induction false} UseSent(m: Message, decode: string -> Decoded, id: string)
    requires AnthropicMessage(m, decode).Some?
    ensures var wire := AnthropicMessage(m, decode).value;
            (wire.Blocks? && exists name: string, input: Json :: ToolUse(id, name, input) in wire.blocks) <==>
            Anthropic.Carries(m.role) && exists k: nat :: k < |m.toolCalls| && m.toolCalls[k].id == id
  {
    var wire := AnthropicMessage(m, decode).value;
    UseBlocksAre(m.toolCalls, decode);
    if wire.Blocks? {
      if name: string, input: Json :| ToolUse(id, name, input) in wire.blocks {
        assert ToolUse(id, name, input) in UseBlocks(m.toolCalls, decode);
        var k :| 0 <= k < |m.toolCalls| && UseBlocks(m.toolCalls, decode)[k] == ToolUse(id, name, input);
      }
    }
    if k: nat :| Anthropic.Carries(m.role) && k < |m.toolCalls| && m.toolCalls[k].id == id {
      assert UseBlockOf(m.toolCalls[k], decode) in UseBlocks(m.toolCalls, decode);
      assert UseBlockOf(m.toolCalls[k], decode) in wire.blocks;
    }
  }

  /** An earlier wire message has a tool_use block with the id the message at `i` answers. */
  ghost predicate AnthropicPaired(messages: seq<Message>, i: nat, decode: string -> Decoded)
    requires i < |messages|
  {
    var out := AnthropicMessages(messages, decode);
    exists at: nat, name: string, input: Json ::
      at < Place(messages, i, decode) && at < |out| && out[at].Blocks?
      && ToolUse(messages[i].toolCallId, name, input) in out[at].blocks
  }

  /**
   * Anthropic: the wire message of every tool message is its tool_result, and it has an earlier tool_use block with the
   * same id if and only if the conversation has an earlier call with that id whose message is kept.
   */
  lemma {:induction false} AnthropicKeepsPairs(messages: seq<Message>, i: nat, decode: string -> Decoded)
    requires i < |messages| && messages[i].role.Tool?
    ensures var out, at := AnthropicMessages(messages, decode), Place(messages, i, decode);
            at < |out| && out[at] == Blocks("user", [ToolResult(messages[i].toolCallId, messages[i].content)])
    ensures AnthropicPaired(messages, i, decode) <==> Answered(Anthropic, messages, i)
  {
    var out, id := AnthropicMessages(messages, decode), messages[i].toolCallId;
    AnthropicKeepsOrder(messages, i, decode);
    if AnthropicPaired(messages, i, decode) {
      var at: nat, name: string, input: Json :| at < Place(messages, i, decode) && at < |out| && out[at].Blocks?
                                                && ToolUse(id, name, input) in out[at].blocks;
      var j := PlaceIsTaken(messages, i, at, decode);
      AnthropicKeepsOrder(messages, j, decode);
      UseSent(messages[j], decode, id);
      var k: nat :| k < |messages[j].toolCalls| && messages[j].toolCalls[k].id == id;
      assert Answers(Anthropic, messages, i, j, k);
    }
    if Answered(Anthropic, messages, i) {
      var j: nat, k: nat :| Answers(Anthropic, messages, i, j, k);
      AnswerIsPaired(messages, i, j, k, decode);
    }
  }

  lemma {:induction false} AnswerIsPaired(messages: seq<Message>, i: nat, j: nat, k: nat, decode: string -> Decoded)
    requires Answers(Anthropic, messages, i, j, k)
    ensures AnthropicPaired(messages, i, decode)
  {
    var out, id, at := AnthropicMessages(messages, decode), messages[i].toolCallId, Place(messages, j, decode);
    AnthropicKeepsOrder(messages, j, decode);
    PlacesGrow(messages, i, j + 1, decode);
    UseSent(messages[j], decode, id);
    var name: string, input: Json :| ToolUse(id, name, input) in out[at].blocks;
  }
}
