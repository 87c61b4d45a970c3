/** The canonical, provider-agnostic conversation model every component shares. */
module Chat {
  datatype Option<+T> = None | Some(value: T)

  /** `arguments` is the raw JSON text of the call's argument object; it may be empty. */
  datatype ToolCall = ToolCall(id: string, name: string, arguments: string)

  datatype Usage = Usage(prompt: int, completion: int, total: int)

  const NO_USAGE := Usage(0, 0, 0)

  /** One streamed chunk. `finishReason` is empty until the final chunk. */
  datatype StreamDelta = StreamDelta(
    delta: string,
    finishReason: string,
    usage: Option<Usage>,
    toolCalls: seq<ToolCall>,
    reasoning: string)

  datatype ChatResponse = ChatResponse(
    id: string,
    model: string,
    content: string,
    finishReason: string,
    usage: Usage,
    toolCalls: seq<ToolCall>,
    reasoning: string)

  datatype Role = System | User | Assistant | Tool | Other(name: string)

  datatype Message = Message(
    role: Role,
    content: string,
    toolCallId: string,
    toolCalls: seq<ToolCall>,
    reasoning: string)

  /** The errors a provider call can end in, as far as the callers tell them apart. */
  datatype Failure = RateLimit | Status(code: int) | Transport {
    /** Server errors and transport failures are worth another attempt; rate limits and 4xx are not. */
    predicate Retryable() { Transport? || (Status? && code >= 500) }
  }

  function TextDelta(text: string): StreamDelta {
    StreamDelta(text, "", None, [], "")
  }

  /** A chunk that only says the stream broke off. */
  const ERROR_DELTA := StreamDelta("", "error", None, [], "")

  /** Empty arguments travel as an empty JSON object. */
  function WithArguments(call: ToolCall): ToolCall {
    if call.arguments == "" then call.(arguments := "{}") else call
  }

  function AllWithArguments(calls: seq<ToolCall>): seq<ToolCall> {
    if calls == [] then [] else [WithArguments(calls[0])] + AllWithArguments(calls[1..])
  }

  lemma {:induction false} AllWithArgumentsAppend(a: seq<ToolCall>, b: seq<ToolCall>)
    ensures AllWithArguments(a + b) == AllWithArguments(a) + AllWithArguments(b)
  {
    if a == [] {
      assert a + b == b;
    } else {
      assert (a + b)[1..] == a[1..] + b;
      AllWithArgumentsAppend(a[1..], b);
    }
  }

  /** The non-empty texts of a run of chunks. */
  function Texts(deltas: seq<StreamDelta>): seq<string> {
    if deltas == [] then []
    else (if deltas[0].delta == "" then [] else [deltas[0].delta]) + Texts(deltas[1..])
  }

  function Concat(texts: seq<string>): string {
    if texts == [] then "" else texts[0] + Concat(texts[1..])
  }

  lemma {:induction false} ConcatAppend(a: seq<string>, b: seq<string>)
    ensures Concat(a + b) == Concat(a) + Concat(b)
  {
    if a == [] {
      assert a + b == b;
    } else {
      assert (a + b)[1..] == a[1..] + b;
      ConcatAppend(a[1..], b);
    }
  }

  lemma {:induction false} TextsAppend(a: seq<StreamDelta>, b: seq<StreamDelta>)
    ensures Texts(a + b) == Texts(a) + Texts(b)
  {
    if a == [] {
      assert a + b == b;
    } else {
      assert (a + b)[1..] == a[1..] + b;
      TextsAppend(a[1..], b);
    }
  }
}
