/** The records that pass between the provider, the runtimes and the middlewares. */
module Types {
  import opened Wrappers
  import opened Json

  datatype ContentBlock = ContentBlock(blockType: string, mimeType: Option<string>, base64: Option<string>)

  /** A tool call as it is recorded inside an assistant message. */
  datatype ToolCall = ToolCall(id: string, name: string, arguments: Value)

  datatype Message = Message(
    role: string,
    content: string,
    blocks: Option<seq<ContentBlock>>,
    toolCalls: Option<seq<ToolCall>>,
    toolCallId: Option<string>,
    name: Option<string>,
    status: Option<string>)

  /** A message with nothing but a role and a text. */
  function Plain(role: string, content: string): Message {
    Message(role, content, None, None, None, None, None)
  }

  /** A tool call as the provider hands it over; the id may be missing. */
  datatype ProviderToolCall = ProviderToolCall(toolName: string, arguments: Value, callId: Option<string>)

  datatype ToolCallRecord = ToolCallRecord(toolName: string, arguments: Value, callId: Option<string>)

  datatype ToolResultRecord = ToolResultRecord(
    toolName: string,
    callId: Option<string>,
    output: Value,
    error: Option<string>,
    status: Option<string>)

  datatype ProviderStep =
    | AssistantMessage(text: string)
    | FinalText(text: string)
    | ToolCalls(calls: seq<ProviderToolCall>)
    | SkillCall(name: string, input: Value, callId: Option<string>)
    | StepError(code: string, message: string)

  /**
   * The serde functions: printing and parsing JSON text, and reading the
   * `tool_calls` field that some providers put into the message text.
   */
  datatype Codec = Codec(
    render: Value -> string,
    parse: string -> Option<Value>,
    decodeCalls: Value -> Option<seq<ToolCall>>)

  /**
   * Parsing undoes printing. An object with a repeated key is no serde value and has no printed form; let it print
   * as some text that is not JSON.
   */
  ghost predicate RoundTrips(codec: Codec) {
    forall v: Value :: codec.parse(codec.render(v)) == Some(v)
  }
}
