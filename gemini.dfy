/** The Gemini model adapter: it turns a conversation into a chat-completions request and maps
    provider stream chunks onto the agent library's stream events.

    `json.dumps` is not modelled: every function that serialises JSON takes it as the parameter
    `dumps`, an arbitrary function, so nothing here depends on how JSON is printed. */
module Gemini {
  import opened Wrappers
  import opened Seqs
  import opened StrandsTypes

  // ----- the request's message list -----

  /** `{"text": text, "type": kind}` */
  datatype FormattedContent = FormattedContent(text: string, kind: string)

  /** The `function` entry of a tool call: serialised arguments and tool name. */
  datatype FunctionCall = FunctionCall(arguments: string, name: string)

  /** `{"function": ..., "id": ..., "type": ...}` */
  datatype ToolCall = ToolCall(functionCall: FunctionCall, id: string, callType: string)

  /** One entry of the request's `messages` list. A `ChatMessage` with empty `toolCalls`
      stands for a dict without the `tool_calls` key. */
  datatype FormattedMessage =
    | SystemMessage(prompt: string)
    | ChatMessage(role: string, content: seq<FormattedContent>, toolCalls: seq<ToolCall>)
    | ToolMessage(toolCallId: string, content: seq<FormattedContent>)
  {
    /** The dict's `role` key. */
    function Role(): string {
      match this
      case SystemMessage(_) => "system"
      case ChatMessage(role, _, _) => role
      case ToolMessage(_, _) => "tool"
    }

    /** The length of the dict's `content` value; a system message's content is its prompt. */
    function ContentLength(): nat {
      match this
      case SystemMessage(prompt) => |prompt|
      case ChatMessage(_, content, _) => |content|
      case ToolMessage(_, content) => |content|
    }

    /** The number of entries under `tool_calls`; 0 when the dict has no such key. */
    function ToolCallCount(): nat {
      if ChatMessage? then |toolCalls| else 0
    }

    /** The final filter keeps a message whose `content` is truthy or that has `tool_calls`. */
    predicate Kept()
      ensures Kept() <==> ContentLength() > 0 || ToolCallCount() > 0
    {
      match this
      case SystemMessage(prompt) => prompt != ""
      case ChatMessage(_, content, toolCalls) => content != [] || toolCalls != []
      case ToolMessage(_, content) => content != []
    }
  }

  /** format_request_message_content: a block is formatted through its `text` key, so a block
      without one raises `KeyError('text')`. */
  function FormatContent(block: ContentBlock): (r: Result<FormattedContent>)
    ensures r.Ok? <==> block.TextBlock?
    ensures r.Ok? ==> r.value.text == block.text && r.value.kind == "text"
    ensures r.Err? ==> r.error == KeyError("text")
  {
    match block
    case TextBlock(text) => Ok(FormattedContent(text, "text"))
    case _ => Err(KeyError("text"))
  }

  /** `[format_request_message_content(b) for b in blocks]`: the first block without text raises. */
  function FormatContents(blocks: seq<ContentBlock>): (r: Result<seq<FormattedContent>>)
    ensures r.Ok? <==> forall i :: 0 <= i < |blocks| ==> blocks[i].TextBlock?
    ensures r.Ok? ==> |r.value| == |blocks|
    ensures r.Ok? ==> forall i :: 0 <= i < |blocks| ==> r.value[i] == FormattedContent(blocks[i].text, "text")
    ensures r.Err? ==> r.error == KeyError("text")
  {
    if blocks == [] then Ok([])
    else
      match FormatContent(blocks[0])
      case Err(e) => Err(e)
      case Ok(first) =>
        match FormatContents(blocks[1..])
        case Err(e) => Err(e)
        case Ok(rest) => Ok([first] + rest)
  }

  /** format_request_message_tool_call */
  function FormatToolCall(toolUse: ToolUse, dumps: Json -> string): (r: ToolCall)
    ensures r.id == toolUse.toolUseId && r.callType == "function"
    ensures r.functionCall.name == toolUse.name && r.functionCall.arguments == dumps(toolUse.input)
  {
    ToolCall(FunctionCall(dumps(toolUse.input), toolUse.name), toolUse.toolUseId, "function")
  }

  /** A tool-result block seen as a content block: a JSON block becomes a text block holding
      its serialisation; text and media blocks pass through. */
  function ResultContentAsBlock(c: ToolResultContent, dumps: Json -> string): (b: ContentBlock)
    ensures b.TextBlock? <==> !c.ResultMedia?
    ensures b.TextBlock? ==> b.text == ResultContentText(c, dumps)
    ensures c.ResultMedia? ==> b == MediaBlock(c.kind)
  {
    match c
    case ResultText(text) => TextBlock(text)
    case ResultJson(json) => TextBlock(dumps(json))
    case ResultMedia(kind) => MediaBlock(kind)
  }

  /** The text a formattable tool-result block contributes. */
  function ResultContentText(c: ToolResultContent, dumps: Json -> string): string
    requires !c.ResultMedia?
  {
    if c.ResultJson? then dumps(c.json) else c.text
  }

  /** format_request_tool_message: one `tool` message answering the tool use it names, with one
      content entry per result block, in order; a media block raises `KeyError('text')`. */
  function FormatToolMessage(toolResult: ToolResult, dumps: Json -> string): (r: Result<FormattedMessage>)
    ensures r.Ok? <==> forall i :: 0 <= i < |toolResult.content| ==> !toolResult.content[i].ResultMedia?
    ensures r.Err? ==> r.error == KeyError("text")
    ensures r.Ok? ==> r.value.ToolMessage? && r.value.Role() == "tool"
    ensures r.Ok? ==> r.value.toolCallId == toolResult.toolUseId
    ensures r.Ok? ==> |r.value.content| == |toolResult.content|
    ensures r.Ok? ==> forall i :: 0 <= i < |toolResult.content| ==>
      r.value.content[i] == FormattedContent(ResultContentText(toolResult.content[i], dumps), "text")
  {
    var blocks := seq(|toolResult.content|, i requires 0 <= i < |toolResult.content| =>
      ResultContentAsBlock(toolResult.content[i], dumps));
    assert forall i :: 0 <= i < |blocks| ==> (blocks[i].TextBlock? <==> !toolResult.content[i].ResultMedia?);
    match FormatContents(blocks)
    case Err(e) => Err(e)
    case Ok(contents) => Ok(ToolMessage(toolResult.toolUseId, contents))
  }

  /** The tool messages of a list of tool results, in order; the first that fails raises. */
  function FormatToolMessages(results: seq<ToolResult>, dumps: Json -> string): (r: Result<seq<FormattedMessage>>)
    ensures r.Ok? <==> forall i :: 0 <= i < |results| ==> FormatToolMessage(results[i], dumps).Ok?
    ensures r.Err? ==> r.error == KeyError("text")
    ensures r.Ok? ==> |r.value| == |results|
    ensures r.Ok? ==> forall i :: 0 <= i < |results| ==> r.value[i] == FormatToolMessage(results[i], dumps).value
  {
    if results == [] then Ok([])
    else
      match FormatToolMessage(results[0], dumps)
      case Err(e) => Err(e)
      case Ok(first) =>
        match FormatToolMessages(results[1..], dumps)
        case Err(e) => Err(e)
        case Ok(rest) => Ok([first] + rest)
  }

  /** A block that goes into a message's `content`: neither a tool use nor a tool result. */
  predicate IsPlainBlock(b: ContentBlock) {
    !b.ToolUseBlock? && !b.ToolResultBlock?
  }

  predicate IsToolUseBlock(b: ContentBlock) {
    b.ToolUseBlock?
  }

  predicate IsToolResultBlock(b: ContentBlock) {
    b.ToolResultBlock?
  }

  /** The tool uses of a message's blocks, in block order. */
  function ToolUses(blocks: seq<ContentBlock>): (r: seq<ToolUse>)
  {
    var uses := Filter(IsToolUseBlock, blocks);
    seq(|uses|, i requires 0 <= i < |uses| => uses[i].toolUse)
  }

  /** The tool results of a message's blocks, in block order. */
  function ToolResults(blocks: seq<ContentBlock>): (r: seq<ToolResult>)
  {
    var results := Filter(IsToolResultBlock, blocks);
    seq(|results|, i requires 0 <= i < |results| => results[i].toolResult)
  }

  /** The tool calls of a message, one per tool use, in order. */
  function FormatToolCalls(uses: seq<ToolUse>, dumps: Json -> string): (r: seq<ToolCall>)
    ensures |r| == |uses|
    ensures forall i :: 0 <= i < |uses| ==> r[i] == FormatToolCall(uses[i], dumps)
  {
    seq(|uses|, i requires 0 <= i < |uses| => FormatToolCall(uses[i], dumps))
  }

  /** A block the formatter accepts: text, a tool use, or a tool result without media. */
  predicate Formattable(b: ContentBlock) {
    match b
    case TextBlock(_) => true
    case ToolUseBlock(_) => true
    case ToolResultBlock(tr) => forall i :: 0 <= i < |tr.content| ==> !tr.content[i].ResultMedia?
    case MediaBlock(_) => false
  }

  /** What the loop body of format_request_messages appends for one message: the message itself
      (its plain blocks as content, its tool uses as tool calls), then one tool message per
      tool result, in block order. */
  function MessageEntries(m: Message, dumps: Json -> string): (r: Result<seq<FormattedMessage>>)
    ensures r.Err? ==> r.error == KeyError("text")
    ensures r.Ok? ==> |r.value| == 1 + |ToolResults(m.content)|
    ensures r.Ok? ==> r.value[0].ChatMessage? && r.value[0].role == m.role
    ensures r.Ok? ==> forall k :: 1 <= k < |r.value| ==> r.value[k].ToolMessage?
  {
    match FormatContents(Filter(IsPlainBlock, m.content))
    case Err(e) => Err(e)
    case Ok(contents) =>
      match FormatToolMessages(ToolResults(m.content), dumps)
      case Err(e) => Err(e)
      case Ok(toolMessages) =>
        Ok([ChatMessage(m.role, contents, FormatToolCalls(ToolUses(m.content), dumps))] + toolMessages)
  }

  /** `MessageEntries` as a function value, for the generic flat map. */
  function EntriesOf(dumps: Json -> string): Message -> Result<seq<FormattedMessage>> {
    m => MessageEntries(m, dumps)
  }

  /** The entries of a whole conversation, message after message; the first failure raises. */
  function ConversationEntries(ms: seq<Message>, dumps: Json -> string): Result<seq<FormattedMessage>> {
    FlatMapResult(EntriesOf(dumps), ms)
  }

  /** `[{"role": "system", "content": p}] if p else []` */
  function SystemHeader(systemPrompt: Option<string>): (r: seq<FormattedMessage>)
    ensures |r| <= 1
    ensures r != [] <==> systemPrompt.Some? && systemPrompt.value != ""
    ensures r != [] ==> r[0] == SystemMessage(systemPrompt.value)
  {
    if systemPrompt.Some? && systemPrompt.value != "" then [SystemMessage(systemPrompt.value)] else []
  }

  function IsKept(f: FormattedMessage): bool {
    f.Kept()
  }

  /** What format_request_messages returns: the system header and every message's entries,
      without the messages that have neither content nor tool calls. */
  function RequestMessages(messages: seq<Message>, systemPrompt: Option<string>, dumps: Json -> string)
    : (r: Result<seq<FormattedMessage>>)
    ensures r.Ok? <==> ConversationEntries(messages, dumps).Ok?
    ensures r.Ok? ==> forall i :: 0 <= i < |r.value| ==> r.value[i].Kept()
  {
    match ConversationEntries(messages, dumps)
    case Err(e) => Err(e)
    case Ok(entries) => Ok(Filter(IsKept, SystemHeader(systemPrompt) + entries))
  }

  /** Formatting one more message: a failure ends the whole conversation's formatting, a success
      appends that message's entries. */
  lemma ConversationEntriesStep(ms: seq<Message>, i: nat, dumps: Json -> string, done: seq<FormattedMessage>)
    requires i < |ms| && ConversationEntries(ms[..i], dumps) == Ok(done)
    ensures MessageEntries(ms[i], dumps).Err? ==> ConversationEntries(ms, dumps) == Err(MessageEntries(ms[i], dumps).error)
    ensures MessageEntries(ms[i], dumps).Ok? ==>
      ConversationEntries(ms[..i + 1], dumps) == Ok(done + MessageEntries(ms[i], dumps).value)
  {
    assert ms[..i + 1] == ms[..i] + [ms[i]];
    assert EntriesOf(dumps)(ms[i]) == MessageEntries(ms[i], dumps);
    FlatMapResultSnoc(EntriesOf(dumps), ms[..i], ms[i]);
    if MessageEntries(ms[i], dumps).Err? {
      FlatMapResultErrPersists(EntriesOf(dumps), ms, i + 1);
    }
  }

  /** The loop of format_request_messages: each message's entries appended in turn; the first
      message that fails to format raises. */
  method FormatConversation(messages: seq<Message>, dumps: Json -> string)
    returns (r: Result<seq<FormattedMessage>>)
    ensures r == ConversationEntries(messages, dumps)
  {
    var formatted: seq<FormattedMessage> := [];
    for i := 0 to |messages|
      invariant ConversationEntries(messages[..i], dumps) == Ok(formatted)
    {
      ConversationEntriesStep(messages, i, dumps, formatted);
      var entries := MessageEntries(messages[i], dumps);
      if entries.Err? {
        return Err(entries.error);
      }
      formatted := formatted + entries.value;
    }
    assert messages[..|messages|] == messages;
    r := Ok(formatted);
  }

  /** format_request_messages: the system header, then every message and its tool messages,
      finally without the messages left empty. */
  method FormatRequestMessages(messages: seq<Message>, systemPrompt: Option<string>, dumps: Json -> string)
    returns (r: Result<seq<FormattedMessage>>)
    ensures r == RequestMessages(messages, systemPrompt, dumps)
  {
    var entries := FormatConversation(messages, dumps);
    if entries.Err? {
      return Err(entries.error);
    }
    r := Ok(Filter(IsKept, SystemHeader(systemPrompt) + entries.value));
  }

  // ----- the request -----

  /** The `params` key of the configuration: absent, explicitly None, or a dict. */
  datatype Params = ParamsUnset | ParamsNone | ParamsMap(entries: map<string, Json>)

  /** The model configuration dict; `None` / `ParamsUnset` stand for an absent key. */
  datatype Config = Config(modelId: Option<string>, params: Params) {
    /** The keys present in the dict. */
    function Keys(): set<string> {
      (if modelId.Some? then {"model_id"} else {}) + (if params.ParamsUnset? then {} else {"params"})
    }

    /** `dict.update`: every key present in `update` takes its value from there. */
    function Updated(update: Config): (r: Config)
      ensures r.Keys() == Keys() + update.Keys()
      ensures "model_id" in update.Keys() ==> r.modelId == update.modelId
      ensures "model_id" !in update.Keys() ==> r.modelId == modelId
      ensures "params" in update.Keys() ==> r.params == update.params
      ensures "params" !in update.Keys() ==> r.params == params
    {
      Config(if update.modelId.Some? then update.modelId else modelId,
             if update.params.ParamsUnset? then params else update.params)
    }
  }

  /** One entry of the request's `tools` list. */
  datatype ToolDefinition = ToolDefinition(toolType: string, name: string, description: string, parameters: Json)

  /** A value of the request dict. */
  datatype RequestValue =
    | MessagesValue(messages: seq<FormattedMessage>)
    | ToolsValue(tools: seq<ToolDefinition>)
    | JsonValue(json: Json)

  /** The `tools` list: one `function` entry per tool spec, in order (`None` counts as no specs). */
  function ToolDefinitions(toolSpecs: Option<seq<ToolSpec>>): (r: seq<ToolDefinition>)
    ensures |r| == |toolSpecs.GetOr([])|
    ensures forall i :: 0 <= i < |r| ==>
      var spec := toolSpecs.value[i];
      r[i] == ToolDefinition("function", spec.name, spec.description, spec.inputSchema.json)
  {
    var specs := toolSpecs.GetOr([]);
    seq(|specs|, i requires 0 <= i < |specs| =>
      ToolDefinition("function", specs[i].name, specs[i].description, specs[i].inputSchema.json))
  }

  /** The keys the request always has before the params are merged in. */
  const RequestKeys: set<string> := {"messages", "model", "stream", "stream_options", "tools"}

  /** Unpacking `None` with `**` raises this. */
  const NotAMappingError: Error := Error("TypeError", "'NoneType' object is not a mapping")

  /** The params dict that `config.get('params', {})` unpacks, when it is one. */
  function ParamEntries(params: Params): map<string, Json> {
    if params.ParamsMap? then params.entries else map[]
  }

  const StreamOptions: Json := JObject([("included_usage", JBool(true))])

  /** The request dict before the params are merged in. */
  function BaseRequest(formatted: seq<FormattedMessage>, modelId: string, toolSpecs: Option<seq<ToolSpec>>)
    : (r: map<string, RequestValue>)
    ensures r.Keys == RequestKeys
    ensures r["messages"] == MessagesValue(formatted) && r["model"] == JsonValue(JString(modelId))
    ensures r["stream"] == JsonValue(JBool(true)) && r["stream_options"] == JsonValue(StreamOptions)
    ensures r["tools"] == ToolsValue(ToolDefinitions(toolSpecs))
  {
    map[
      "messages" := MessagesValue(formatted),
      "model" := JsonValue(JString(modelId)),
      "stream" := JsonValue(JBool(true)),
      "stream_options" := JsonValue(StreamOptions),
      "tools" := ToolsValue(ToolDefinitions(toolSpecs))]
  }

  /** `{**base, **params}`: the params are merged last, so they win on a shared key. */
  function WithParams(base: map<string, RequestValue>, params: map<string, Json>): (r: map<string, RequestValue>)
    ensures r.Keys == base.Keys + params.Keys
    ensures forall k :: k in params ==> r[k] == JsonValue(params[k])
    ensures forall k :: k in base && k !in params ==> r[k] == base[k]
  {
    base + map k | k in params :: JsonValue(params[k])
  }

  class GeminiModel {
    var config: Config

    /** `__init__`: the configuration is the keyword arguments given; the provider client is not modelled. */
    constructor (modelConfig: Config)
      ensures config == modelConfig
    {
      config := modelConfig;
    }

    /** update_config: the keys given replace those of the current configuration. */
    method UpdateConfig(modelConfig: Config)
      modifies this
      ensures config == old(config).Updated(modelConfig)
    {
      config := config.Updated(modelConfig);
    }

    /** format_request: the messages, `model` from the configuration, streaming switched on, the
        tool definitions, and then the configured params, which override any key above.
        Evaluation order decides the error: the messages, then `model_id`, then the params. */
    function FormatRequest(messages: seq<Message>, toolSpecs: Option<seq<ToolSpec>>,
                           systemPrompt: Option<string>, dumps: Json -> string)
      : (r: Result<map<string, RequestValue>>)
      reads this
      ensures RequestMessages(messages, systemPrompt, dumps).Err? ==>
        r == Err(RequestMessages(messages, systemPrompt, dumps).error)
      ensures RequestMessages(messages, systemPrompt, dumps).Ok? && config.modelId.None? ==>
        r == Err(KeyError("model_id"))
      ensures RequestMessages(messages, systemPrompt, dumps).Ok? && config.modelId.Some? && config.params.ParamsNone? ==>
        r == Err(NotAMappingError)
      ensures r.Ok? <==>
        RequestMessages(messages, systemPrompt, dumps).Ok? && config.modelId.Some? && !config.params.ParamsNone?
      ensures r.Ok? ==>
        var params := ParamEntries(config.params);
        && r.value.Keys == RequestKeys + params.Keys
        && (forall k :: k in params ==> r.value[k] == JsonValue(params[k]))
        && ("messages" !in params ==> r.value["messages"] == MessagesValue(RequestMessages(messages, systemPrompt, dumps).value))
        && ("model" !in params ==> r.value["model"] == JsonValue(JString(config.modelId.value)))
        && ("stream" !in params ==> r.value["stream"] == JsonValue(JBool(true)))
        && ("stream_options" !in params ==> r.value["stream_options"] == JsonValue(StreamOptions))
        && ("tools" !in params ==> r.value["tools"] == ToolsValue(ToolDefinitions(toolSpecs)))
    {
      match RequestMessages(messages, systemPrompt, dumps)
      case Err(e) => Err(e)
      case Ok(formatted) =>
        if config.modelId.None? then Err(KeyError("model_id"))
        else if config.params.ParamsNone? then Err(NotAMappingError)
        else Ok(WithParams(BaseRequest(formatted, config.modelId.value, toolSpecs), ParamEntries(config.params)))
    }
  }

  // ----- stream chunks -----

  /** The provider's tool-call object: `.id`, `.function.name`, `.function.arguments`. */
  datatype ToolCallData = ToolCallData(id: string, name: string, arguments: Option<string>)

  /** The `data` value of a chunk; `NoData` stands for an absent key. */
  datatype ChunkData =
    | NoData
    | ToolData(call: ToolCallData)
    | TextData(text: string)
    | UsageData(promptTokens: int, completionTokens: int, totalTokens: int)

  /** A provider chunk `{"chunk_type": ..., "data_type": ..., "data": ...}`; `None` stands for
      an absent key. */
  datatype Chunk = Chunk(chunkType: Option<string>, dataType: Option<string>, data: ChunkData)

  const KnownChunkTypes: set<string> :=
    {"message_start", "content_start", "content_delta", "content_stop", "message_stop", "metadata"}

  function AttributeError(name: string): Error {
    Error("AttributeError", "object has no attribute '" + name + "'")
  }

  /** The error raised for a chunk type outside the six known ones. */
  function UnknownChunkError(chunkType: string): Error {
    Error("RuntimeError", "chunk_type=<" + chunkType + " | unkwown_type")
  }

  /** The chunk type a stream event is made from. */
  function ChunkTypeOf(e: StreamEvent): string {
    match e
    case MessageStart(_) => "message_start"
    case ContentBlockStart(_) => "content_start"
    case ContentBlockDelta(_) => "content_delta"
    case ContentBlockStop => "content_stop"
    case MessageStop(_) => "message_stop"
    case Metadata(_, _) => "metadata"
  }

  /** The finish reason of a `message_stop` chunk as a stop reason. */
  function StopReasonOf(data: ChunkData): (r: StopReason)
    ensures r == ToolUseRequested <==> data == TextData("tool_calls")
    ensures r == MaxTokens <==> data == TextData("length")
    ensures r == EndTurn <==> data != TextData("tool_calls") && data != TextData("length")
  {
    if data == TextData("tool_calls") then ToolUseRequested
    else if data == TextData("length") then MaxTokens
    else EndTurn
  }

  /** format_chunk: each of the six known chunk types becomes the stream event of that kind;
      any other chunk type raises. */
  function FormatChunk(event: Chunk): (r: Result<StreamEvent>)
    ensures r.Ok? ==> event.chunkType == Some(ChunkTypeOf(r.value))
    ensures event.chunkType.None? ==> r == Err(KeyError("chunk_type"))
    ensures event.chunkType.Some? && event.chunkType.value !in KnownChunkTypes ==>
      r == Err(UnknownChunkError(event.chunkType.value))
    ensures event.chunkType == Some("message_start") || event.chunkType == Some("content_stop") ==> r.Ok?
    ensures event.chunkType == Some("message_start") ==> r == Ok(MessageStart("assistant"))
    ensures event.chunkType == Some("content_start") && event.dataType.Some? && event.dataType.value != "tool" ==>
      r == Ok(ContentBlockStart(None))
  {
    if event.chunkType.None? then Err(KeyError("chunk_type"))
    else if event.chunkType == Some("message_start") then Ok(MessageStart("assistant"))
    else if event.chunkType == Some("content_start") then
      if event.dataType.None? then Err(KeyError("data_type"))
      else if event.dataType.value == "tool" then
        match event.data
        case ToolData(call) => Ok(ContentBlockStart(Some(ToolUseStart(call.name, call.id))))
        case NoData => Err(KeyError("data"))
        case _ => Err(AttributeError("function"))
      else Ok(ContentBlockStart(None))
    else if event.chunkType == Some("content_delta") then
      if event.dataType.None? then Err(KeyError("data_type"))
      else if event.dataType.value == "tool" then
        match event.data
        case ToolData(call) => Ok(ContentBlockDelta(ToolInputDelta(call.arguments.GetOr(""))))
        case NoData => Err(KeyError("data"))
        case _ => Err(AttributeError("function"))
      else
        match event.data
        case TextData(text) =>
          if event.dataType.value == "reasoninig_content" then Ok(ContentBlockDelta(ReasoningDelta(text)))
          else Ok(ContentBlockDelta(TextDelta(text)))
        case NoData => Err(KeyError("data"))
        case _ => Err(Error("TypeError", "delta payload is not a string"))
    else if event.chunkType == Some("content_stop") then Ok(ContentBlockStop)
    else if event.chunkType == Some("message_stop") then
      if event.data.NoData? then Err(KeyError("data"))
      else Ok(MessageStop(StopReasonOf(event.data)))
    else if event.chunkType == Some("metadata") then
      match event.data
      case UsageData(prompt, completion, total) => Ok(Metadata(Usage(prompt, completion, total), 0))
      case NoData => Err(KeyError("data"))
      case _ => Err(AttributeError("prompt_tokens"))
    else Err(UnknownChunkError(event.chunkType.value))
  }
}
