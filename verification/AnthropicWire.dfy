/** The Anthropic Messages event vocabulary, printed by one side of the router and parsed by the other. */
module AnthropicWire {
  import opened Chat

  /** The events the router prints. */
  datatype Event =
    | MessageStart(inputTokens: int)
    | TextStart(index: nat)
    | ToolStart(index: nat, id: string, name: string)
    | TextFragment(index: nat, text: string)
    | ArgumentsFragment(index: nat, partialJson: string)
    | BlockStop(index: nat)
    | MessageDelta(stopReason: string, outputTokens: int)
    | MessageStop
    | ErrorEvent(message: string)

  datatype Block = Block(kind: string, id: string, name: string)

  datatype Delta = Delta(kind: string, text: string, partialJson: string, stopReason: string)

  /** The payload fields a reader looks for. Any of them may be missing from what a provider sends. */
  datatype Payload = Payload(
    index: Option<int>,
    inputTokens: Option<int>,
    block: Option<Block>,
    delta: Option<Delta>,
    outputTokens: Option<int>,
    error: Option<string>)

  const NO_PAYLOAD := Payload(None, None, None, None, None, None)

  /** An event as it travels: its name, and its decoded payload. */
  datatype WireEvent = WireEvent(name: string, payload: Payload)

  function OnWire(e: Event): WireEvent {
    match e
    case MessageStart(input) => WireEvent("message_start", NO_PAYLOAD.(inputTokens := Some(input)))
    case TextStart(i) =>
      WireEvent("content_block_start", NO_PAYLOAD.(index := Some(i), block := Some(Block("text", "", ""))))
    case ToolStart(i, id, name) =>
      WireEvent("content_block_start", NO_PAYLOAD.(index := Some(i), block := Some(Block("tool_use", id, name))))
    case TextFragment(i, text) =>
      WireEvent("content_block_delta",
                NO_PAYLOAD.(index := Some(i), delta := Some(Delta("text_delta", text, "", ""))))
    case ArgumentsFragment(i, json) =>
      WireEvent("content_block_delta",
                NO_PAYLOAD.(index := Some(i), delta := Some(Delta("input_json_delta", "", json, ""))))
    case BlockStop(i) => WireEvent("content_block_stop", NO_PAYLOAD.(index := Some(i)))
    case MessageDelta(stop, output) =>
      WireEvent("message_delta",
                NO_PAYLOAD.(delta := Some(Delta("", "", "", stop)), outputTokens := Some(output)))
    case MessageStop => WireEvent("message_stop", NO_PAYLOAD)
    case ErrorEvent(message) => WireEvent("error", NO_PAYLOAD.(error := Some(message)))
  }

  // ---- the two finish vocabularies ------------------------------------------------------------

  function StopReason(finish: string): string {
    if finish == "stop" then "end_turn"
    else if finish == "length" then "max_tokens"
    else if finish == "tool_calls" then "tool_use"
    else if finish == "error" then "error"
    else "end_turn"
  }

  function FinishReason(stop: string): string {
    if stop == "end_turn" || stop == "stop_sequence" then "stop"
    else if stop == "max_tokens" then "length"
    else if stop == "tool_use" then "tool_calls"
    else if stop == "refusal" then "content_filter"
    else stop
  }

  /** The finish reasons the Anthropic vocabulary can carry. */
  predicate Portable(finish: string) {
    finish == "stop" || finish == "length" || finish == "tool_calls" || finish == "error"
  }

  /** A finish reason survives the trip exactly when it is one of the four; every other one becomes "stop". */
  lemma {:induction false} FinishReasonRoundTrip(finish: string)
    ensures FinishReason(StopReason(finish)) == if Portable(finish) then finish else "stop"
    ensures FinishReason(StopReason(finish)) == finish <==> Portable(finish)
  {
  }
}
