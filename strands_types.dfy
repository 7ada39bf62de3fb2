/** The conversation and streaming vocabulary of the agent library the Gemini model plugs into
    (its `types.content`, `types.tools` and `types.streaming`), as far as the model uses it. */
module StrandsTypes {
  import opened Wrappers

  /** A JSON value, as carried by tool inputs, tool results and tool schemas. */
  datatype Json =
    | JNull
    | JBool(b: bool)
    | JNumber(n: int)
    | JString(s: string)
    | JArray(items: seq<Json>)
    | JObject(fields: seq<(string, Json)>)

  /** A tool invocation requested by the model. */
  datatype ToolUse = ToolUse(toolUseId: string, name: string, input: Json)

  /** One block of a tool result: text, a JSON document, or media (image, document), which has no `text` key. */
  datatype ToolResultContent =
    | ResultText(text: string)
    | ResultJson(json: Json)
    | ResultMedia(kind: string)

  datatype ToolResult = ToolResult(toolUseId: string, status: string, content: seq<ToolResultContent>)

  /** One content block of a message. `MediaBlock` stands for every block kind that has
      neither a `text`, a `toolUse` nor a `toolResult` key (image, document, video, ...). */
  datatype ContentBlock =
    | TextBlock(text: string)
    | ToolUseBlock(toolUse: ToolUse)
    | ToolResultBlock(toolResult: ToolResult)
    | MediaBlock(kind: string)

  datatype Message = Message(role: string, content: seq<ContentBlock>)

  datatype InputSchema = InputSchema(json: Json)

  datatype ToolSpec = ToolSpec(name: string, description: string, inputSchema: InputSchema)

  // ----- streaming events -----

  datatype StopReason = ToolUseRequested | MaxTokens | EndTurn {
    /** The wire name of the stop reason. */
    function Name(): string {
      match this
      case ToolUseRequested => "tool_use"
      case MaxTokens => "max_tokens"
      case EndTurn => "end_turn"
    }
  }

  datatype ToolUseStart = ToolUseStart(name: string, toolUseId: string)

  datatype Delta =
    | ToolInputDelta(input: string)
    | ReasoningDelta(text: string)
    | TextDelta(text: string)

  datatype Usage = Usage(inputTokens: int, outputTokens: int, totalTokens: int)

  /** The closed vocabulary of events a model provider's stream is normalised into. */
  datatype StreamEvent =
    | MessageStart(role: string)
    | ContentBlockStart(toolStart: Option<ToolUseStart>)
    | ContentBlockDelta(delta: Delta)
    | ContentBlockStop
    | MessageStop(stopReason: StopReason)
    | Metadata(usage: Usage, latencyMs: int)
}
