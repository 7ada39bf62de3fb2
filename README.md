# Gemini adapter and AWS cost estimation agent, in Dafny

This project models two parts of a small agent sample.

**The Gemini model adapter** (`GeminiModel`) translates in two directions.
- It turns a strands-style conversation into a chat-completions request. The conversation is messages whose content blocks are text, tool uses or tool results, plus tool specs and an optional system prompt.
- It maps provider stream chunks onto the strands stream-event vocabulary.

**The AWS cost estimation agent** (`AWSCostEstimatorAgent`) runs one estimation:
1. it opens a code interpreter session;
2. it builds a pricing MCP client from the caller's AWS credentials;
3. it runs an agent over both;
4. it always closes the session;
5. it turns the agent's final message, or any failure, into one string.

Files:
- `wrappers.dfy`: `Option`, `Result`, `Outcome`, and `Error` for Python exceptions.
- `seqs.dfy`: generic filter, join/split, flatten and flat-map with their lemmas.
- `strands_types.dfy`: the conversation and stream-event vocabulary.
- `gemini.dfy`, `gemini_properties.dfy`: the adapter.
- `cost_estimator.dfy`, `cost_estimator_properties.dfy`: the agent.

The agent's external services are not modelled:
- the code interpreter;
- the boto3 credential chain and STS;
- the pricing MCP client;
- the Bedrock model;
- the strands `Agent`.

What each service returns, or the exception it raises, is read from a `Services` record. Every call the agent makes is appended to the ghost trace `calls`.

`json.dumps` is the parameter `dumps`, an arbitrary function. `traceback.format_exc()` is the string `Services.traceback`.

The methods are proved against specification functions:
- `FormatConversation` against `ConversationEntries`, and `FormatRequestMessages` against `RequestMessages`;
- `CollectEventTexts` against `EventTexts`, and `CollectTexts` against `StreamTexts`;
- `CollectTextParts` against `TextParts`, and `ComposeAnswer` against `FinalText`;
- `EstimateCosts` against `ExpectedCalls` and `ExpectedReport`.

`ExpectedCalls` is stated independently of the code's control flow. It takes the nine planned calls and cuts them after the first failing stage. It then appends the pricing client's exit, if that client was entered, and the interpreter's stop, if a session is held.

### Evident defects, modelled by their intent

- `01_sample_agent/models/gemini.py`:
  - `contents` at :79, :91, :96 and :101 is undefined. The model reads the list being iterated: the converted list `content` built at :68-74 (`ResultContentAsBlock`) at :79, the message's content at :91-101.
  - `formatted_message.append`/`.extend` at :111-112 is read as appending to `formatted_messages`.
  - The conditional at :108 has no `else`. The model adds `tool_calls` only when there are tool calls. A `ChatMessage` with empty `toolCalls` stands for a dict without the key.
  - The `TypedDict` keyword `toatl` at :32 is ignored.
- `01_sample_agent/cost_estimator_agent/cost_estimator_agent.py`:
  - :114 iterates `response.get("stream", [])`.
  - :120 appends `content_item["text"]`.

### Behaviour of the code worth knowing

- **A failed `stop()` is not swallowed.** The handler at cost_estimator_agent.py:195 calls `logger.warining`, which does not exist, so the handler raises `AttributeError`. The `finally` at :196-197 still resets the session. In `estimate_costs` that error replaces the answer or the earlier error (`ExpectedReport`, `CostEstimatorAgent.Cleanup`).
- **Credentials are looked up only after the interpreter has started** (:134-135). With no credentials the trace is create, start, lookup, stop (`MissingCredentials`).
- **`estimate_costs` can answer `""`.** A final message whose only text block has empty text yields the empty string (`FinalTextMayBeEmpty`).
- **A failed calculation returns `None`.** The `except` at :127-128 logs and returns nothing (`CalculationResult`).
- **Sandbox invocation** uses language `"python"` and operation `executeCode` (:108-111).

## Model

| member | source | states |
|---|---|---|
| Gemini.FormatContent | 01_sample_agent/models/gemini.py:51-53 | succeeds exactly on a text block, giving its text with type "text"; any other block raises KeyError('text') |
| Gemini.FormatContents | 01_sample_agent/models/gemini.py:89-93 | succeeds exactly when every block is text; then one entry per block, in order, with that block's text |
| Gemini.FormatToolCall | 01_sample_agent/models/gemini.py:56-64 | id is the toolUseId, type is "function", function name is the tool name, arguments are dumps(input) |
| Gemini.ResultContentAsBlock | 01_sample_agent/models/gemini.py:70-73 | a result block becomes a text block exactly when it is text or JSON; that block's text is the text unchanged or dumps of the JSON; a media block stays a media block of the same kind |
| Gemini.FormatToolMessage | 01_sample_agent/models/gemini.py:67-80 | role "tool", tool_call_id is the result's toolUseId, one content entry per result block in order (JSON as dumps, text as is); raises KeyError('text') exactly when a block is media |
| Gemini.FormatToolMessages | 01_sample_agent/models/gemini.py:99-103 | one tool message per tool result, in order; fails exactly when one of them fails |
| Gemini.FormatToolCalls | 01_sample_agent/models/gemini.py:95-97 | one tool call per tool use, in order |
| Gemini.FormattedMessage.Kept | 01_sample_agent/models/gemini.py:114 | a message is kept exactly when its content is non-empty (a system message's prompt, otherwise its content list) or it carries at least one tool call |
| Gemini.MessageEntries | 01_sample_agent/models/gemini.py:87-112 | a failing message raises KeyError('text'); otherwise it yields the message with its own role first, followed by exactly one tool message per tool result |
| Gemini.SystemHeader | 01_sample_agent/models/gemini.py:85 | at most one entry; there is one exactly when the system prompt is given and non-empty, and it is the system message with that prompt |
| Gemini.RequestMessages | 01_sample_agent/models/gemini.py:83-114 | fails exactly when some message's entries fail; every message it returns is kept by the final filter |
| Gemini.FormatConversation | 01_sample_agent/models/gemini.py:87-112 | the loop over the messages computes exactly ConversationEntries, including the error raised by the first failing message |
| Gemini.FormatRequestMessages | 01_sample_agent/models/gemini.py:83-114 | the header, then the loop's entries, then the filter, compute exactly RequestMessages, including the error raised by the first failing message |
| Gemini.Config.Updated | 01_sample_agent/models/gemini.py:42-44 | dict.update: the keys are the union; each key given in the update takes the update's value, the others keep theirs |
| Gemini.GeminiModel.constructor | 01_sample_agent/models/gemini.py:36-38 | the configuration is the keyword arguments given |
| Gemini.GeminiModel.UpdateConfig | 01_sample_agent/models/gemini.py:42-44 | the new configuration is the old one updated with the arguments |
| Gemini.ToolDefinitions | 01_sample_agent/models/gemini.py:124-134 | one "function" entry per tool spec, in order, with name, description and inputSchema.json copied; None gives no entries |
| Gemini.BaseRequest | 01_sample_agent/models/gemini.py:119-134 | exactly the keys messages, model, stream, stream_options and tools, with stream True and stream_options {included_usage: True} |
| Gemini.WithParams | 01_sample_agent/models/gemini.py:135 | the params are merged last: every param key takes the param's value, every other key keeps the base value |
| Gemini.GeminiModel.FormatRequest | 01_sample_agent/models/gemini.py:116-136 | raises the messages' error first, then KeyError('model_id'), then TypeError for params None; otherwise model is config model_id, stream is True, tools follow the specs, and params override any key |
| Gemini.FormatChunk | 01_sample_agent/models/gemini.py:138-200 | a successful chunk becomes the event of its own chunk type; a chunk without chunk_type raises KeyError('chunk_type'); message_start always gives the role 'assistant' and content_stop always succeeds; a non-tool content_start gives an empty start; any chunk type outside the six known ones raises RuntimeError with the source's message |
| Gemini.StopReasonOf | 01_sample_agent/models/gemini.py:176-183 | the finish reason 'tool_calls' gives tool_use, 'length' gives max_tokens, and anything else end_turn, each if and only if |
| Gemini.ConversationEntriesStep | 01_sample_agent/models/gemini.py:87-112 | one more message either ends formatting with its error or appends its entries |
| GeminiProperties.ToolResultsOfBlocks | 01_sample_agent/models/gemini.py:99-103 | the tool results listed are exactly those of the tool-result blocks |
| GeminiProperties.MessageEntriesOkIff | 01_sample_agent/models/gemini.py:87-112 | a message formats exactly when each block is text, a tool use, or a tool result without media; otherwise KeyError('text') |
| GeminiProperties.ConversationEntriesOkIff | 01_sample_agent/models/gemini.py:87-112 | a conversation formats exactly when each message does |
| GeminiProperties.RequestMessagesOkIff | 01_sample_agent/models/gemini.py:83-114 | format_request_messages succeeds exactly when every block of every message is formattable |
| GeminiProperties.MessageEntriesShape | 01_sample_agent/models/gemini.py:87-112 | a message yields itself with its role, its plain blocks' text in order and its tool uses as tool calls in order, immediately followed by one tool message per tool result in block order, each equal to FormatToolMessage of that result (JSON blocks as dumps(json), text unchanged) |
| GeminiProperties.PlainBlocksAndToolUses | 01_sample_agent/models/gemini.py:89-97 | content comes exactly from blocks that are neither tool uses nor tool results; tool calls come exactly from tool-use blocks |
| GeminiProperties.ConversationEntriesFlatten | 01_sample_agent/models/gemini.py:87-112 | the conversation's entries are each message's entries concatenated in message order |
| GeminiProperties.ConversationEntriesConcat | 01_sample_agent/models/gemini.py:87-112 | formatting a + b formats a, then b |
| GeminiProperties.RequestMessagesConcat | 01_sample_agent/models/gemini.py:114 | the final filter keeps relative order: the request messages of a + b are those of a followed by those of b |
| GeminiProperties.RequestMessagesDropsExactlyEmpty | 01_sample_agent/models/gemini.py:114 | a message is in the result exactly when it was formatted and has content or tool calls |
| GeminiProperties.NoSystemEntries | 01_sample_agent/models/gemini.py:87-112 | formatted conversation messages are never system messages |
| GeminiProperties.SystemMessageFirst | 01_sample_agent/models/gemini.py:85 | the first message is a system message carrying the prompt exactly when the prompt is non-empty, and no other message is a system message |
| GeminiProperties.UpdatedIdempotent | 01_sample_agent/models/gemini.py:42-44 | updating twice with the same keys equals updating once; an empty update changes nothing |
| GeminiProperties.FormatChunkOkIff | 01_sample_agent/models/gemini.py:138-200 | format_chunk raises exactly on chunks that are not well formed (unknown type, missing data_type or data, wrong payload) |
| GeminiProperties.MessageStopReasons | 01_sample_agent/models/gemini.py:176-183 | tool_calls gives tool_use, length gives max_tokens, anything else end_turn, each if and only if |
| GeminiProperties.ToolChunks | 01_sample_agent/models/gemini.py:143-164 | a tool content_start carries the tool's name and id; a tool content_delta carries the arguments, or "" when there are none |
| GeminiProperties.TextChunks | 01_sample_agent/models/gemini.py:158-171 | a non-tool delta carries the chunk's text; it is a reasoning delta exactly when the tag is 'reasoninig_content' |
| GeminiProperties.MetadataChunk | 01_sample_agent/models/gemini.py:185-197 | metadata copies prompt, completion and total tokens and reports latency 0 |
| CostEstimator.CostEstimationPrompt | 01_sample_agent/cost_estimator_agent/config.py:52-55 | the prompt embeds the architecture description verbatim after the fixed 68-character lead line |
| CostEstimator.FailureReport | 01_sample_agent/cost_estimator_agent/cost_estimator_agent.py:183-186 | the report starts with "🆖 Cost estimation failed: " followed by the error's message, the stack-trace separator and the trace |
| CostEstimator.CredentialDict | 01_sample_agent/cost_estimator_agent/cost_estimator_agent.py:60-71 | keys AWS_ACCESS_KEY_ID, AWS_SECRET_ACCESS_KEY and AWS_REGION (the agent's region), plus AWS_SESSION_TOKEN exactly when the token is truthy, with the frozen values |
| CostEstimator.PricingServerEnvironment | 01_sample_agent/cost_estimator_agent/cost_estimator_agent.py:81-84 | FASTMCP_LOG_LEVEL "ERROR" overlaid by the credentials: every credential keeps its value, and the log level is "ERROR" unless a credential overrides it |
| CostEstimator.ItemText | 01_sample_agent/cost_estimator_agent/cost_estimator_agent.py:118-120 | an item fails with KeyError('text') exactly when it is text-typed without text; otherwise it contributes its text when it is text-typed and nothing else |
| CostEstimator.EventItems | 01_sample_agent/cost_estimator_agent/cost_estimator_agent.py:115-118 | an event contributes items only when it has a result with content, and then exactly that content |
| CostEstimator.StreamTexts | 01_sample_agent/cost_estimator_agent/cost_estimator_agent.py:113-120 | an empty stream collects nothing; a failure is always KeyError('text') |
| CostEstimator.CalculationResult | 01_sample_agent/cost_estimator_agent/cost_estimator_agent.py:104-128 | a raising invocation gives None; otherwise there is a result exactly when collecting the texts succeeds |
| CostEstimator.StreamTextsStep | 01_sample_agent/cost_estimator_agent/cost_estimator_agent.py:113-120 | one more event either ends the collection with its error or appends its texts |
| CostEstimator.CollectEventTexts | 01_sample_agent/cost_estimator_agent/cost_estimator_agent.py:115-120 | the inner loop over one event's content items computes exactly EventTexts: the texts of its text items in order, or KeyError('text') at a text item without text |
| CostEstimator.CollectTexts | 01_sample_agent/cost_estimator_agent/cost_estimator_agent.py:113-120 | the outer loop, appending each event's texts, computes exactly StreamTexts, including the KeyError('text') of a text item without text |
| CostEstimator.CollectTextParts | 01_sample_agent/cost_estimator_agent/cost_estimator_agent.py:175-178 | the loop computes exactly TextParts of the blocks |
| CostEstimator.TextParts | 01_sample_agent/cost_estimator_agent/cost_estimator_agent.py:175-178 | at most one part per block, and there are no parts exactly when no block is a dict with a text key |
| CostEstimator.ComposeAnswer | 01_sample_agent/cost_estimator_agent/cost_estimator_agent.py:174-182 | the answer block computes exactly FinalText of the agent's result |
| CostEstimator.FinalText | 01_sample_agent/cost_estimator_agent/cost_estimator_agent.py:174-182 | no message, or no or empty content, answers "No estimation result."; content without a text block answers "No text content found." |
| CostEstimator.ExpectedCalls | 01_sample_agent/cost_estimator_agent/cost_estimator_agent.py:130-186 | the agent is run, as the ninth call, exactly when every setup stage succeeded |
| CostEstimator.ExpectedReport | 01_sample_agent/cost_estimator_agent/cost_estimator_agent.py:130-186 | a failed stop answers the AttributeError report whatever else happened; otherwise (a stop that passes, or no stop made because no session is held) the first failing stage's error is reported, and with no failure the answer is the final text |
| CostEstimator.AgentTools | 01_sample_agent/cost_estimator_agent/cost_estimator_agent.py:138-140 | the calculation tool first, then every pricing tool in listed order |
| CostEstimator.CostEstimatorAgent.constructor | 01_sample_agent/cost_estimator_agent/cost_estimator_agent.py:31-34 | the agent keeps its region, "us-east-1" unless given, and holds no interpreter session |
| CostEstimator.CostEstimatorAgent.SetupCodeInterpreter | 01_sample_agent/cost_estimator_agent/cost_estimator_agent.py:36-44 | a failed construction raises and leaves the field unchanged; otherwise the new session is stored before start is called, and start's failure is raised |
| CostEstimator.CostEstimatorAgent.GetAwsCredentials | 01_sample_agent/cost_estimator_agent/cost_estimator_agent.py:46-74 | a raising lookup propagates; missing credentials raise "✖️ No AWS credentials found"; the caller identity is checked before freezing; otherwise the result is CredentialDict |
| CostEstimator.CostEstimatorAgent.SetupAwsPricingClient | 01_sample_agent/cost_estimator_agent/cost_estimator_agent.py:76-97 | credential errors propagate; otherwise the server runs uvx on the pricing package with PricingServerEnvironment of the credentials |
| CostEstimator.CostEstimatorAgent.ExecuteCostCalculation | 01_sample_agent/cost_estimator_agent/cost_estimator_agent.py:99-128 | without a session it returns "✖️ Code interpreter not initialized" and calls nothing; otherwise it invokes executeCode in python once and returns CalculationResult; the session is unchanged |
| CostEstimator.CostEstimatorAgent.Cleanup | 01_sample_agent/cost_estimator_agent/cost_estimator_agent.py:188-197 | the session is None afterwards whether or not stop raised; without a session nothing is called, so a second cleanup calls nothing; a failed stop raises AttributeError from the misspelt logger call |
| CostEstimator.CostEstimatorAgent.Abandon | 01_sample_agent/cost_estimator_agent/cost_estimator_agent.py:155-159 | while an error propagates the finally clause cleans up; the clean-up's own error replaces the propagating one |
| CostEstimator.CostEstimatorAgent.UsePricingClient | 01_sample_agent/cost_estimator_agent/cost_estimator_agent.py:137-152 | the client is entered, its tools listed and the agent built, stopping at the first failure; a failure after entering exits the client; the agent has the default model without streaming and AgentTools of the listed tools; the session is untouched |
| CostEstimator.CostEstimatorAgent.SetUpEstimationAgent | 01_sample_agent/cost_estimator_agent/cost_estimator_agent.py:132-152 | the calls are the setup plan cut after the first failing stage, then the pricing client's exit when the failure is inside its block; the error is the first failing stage's; the session is stored exactly when one was created |
| CostEstimator.CostEstimatorAgent.EnterEstimationAgent | 01_sample_agent/cost_estimator_agent/cost_estimator_agent.py:130-159 | the setup calls are the plan cut after the first failing stage, then the pricing client's exit if it was entered and the stop if a session is held; on success the agent has the default model without streaming and AgentTools of the listed tools |
| CostEstimator.CostEstimatorAgent.ExitEstimationAgent | 01_sample_agent/cost_estimator_agent/cost_estimator_agent.py:137-159 | leaving the scope exits the pricing client, then cleans up; a clean-up error replaces the body's outcome |
| CostEstimator.CostEstimatorAgent.RunEstimation | 01_sample_agent/cost_estimator_agent/cost_estimator_agent.py:166-182 | the body of the `with` block calls the agent once on the estimation prompt; its answer is the agent's error or FinalText of the agent's result; the session is untouched |
| CostEstimator.CostEstimatorAgent.EstimateCosts | 01_sample_agent/cost_estimator_agent/cost_estimator_agent.py:161-186 | never raises; the calls are ExpectedCalls and the answer is ExpectedReport; the session is None afterwards on every path |
| CostEstimatorProperties.ItemTextsAreTextItems | 01_sample_agent/cost_estimator_agent/cost_estimator_agent.py:118-120 | the items give the texts of the text-typed items, in order, and fail exactly when a text item has no text |
| CostEstimatorProperties.StreamTextsAreReference | 01_sample_agent/cost_estimator_agent/cost_estimator_agent.py:113-120 | the texts are those of text items of events that have a result with content, in stream order; failure exactly when such an item lacks text |
| CostEstimatorProperties.StreamTextsErrIsEventError | 01_sample_agent/cost_estimator_agent/cost_estimator_agent.py:113-120 | a failed stream fails with the error of one of its events |
| CostEstimatorProperties.CalculationResultEdges | 01_sample_agent/cost_estimator_agent/cost_estimator_agent.py:108-128 | an absent or empty stream, or events without results, give ""; a raising invocation gives None |
| CostEstimatorProperties.CalculationResultSplits | 01_sample_agent/cost_estimator_agent/cost_estimator_agent.py:122 | splitting the result at newlines recovers the texts when they contain no newline |
| CostEstimatorProperties.TextPartsAreTextEntries | 01_sample_agent/cost_estimator_agent/cost_estimator_agent.py:175-178 | the text parts are the texts of the dict blocks with a text key, in block order; other blocks are skipped |
| CostEstimatorProperties.FinalTextCases | 01_sample_agent/cost_estimator_agent/cost_estimator_agent.py:174-182 | no message or no content gives "No estimation result."; content without a text block gives "No text content found."; otherwise the text parts concatenated with no separator |
| CostEstimatorProperties.FinalTextMayBeEmpty | 01_sample_agent/cost_estimator_agent/cost_estimator_agent.py:174-180 | a message whose one text block has empty text answers "" |
| CostEstimatorProperties.StartBeforePricingClient | 01_sample_agent/cost_estimator_agent/cost_estimator_agent.py:134-137 | whenever the pricing client is entered, the interpreter was started earlier |
| CostEstimatorProperties.StopIsLast | 01_sample_agent/cost_estimator_agent/cost_estimator_agent.py:158-159 | the session is stopped exactly when one is held, as the last call and only once |
| CostEstimatorProperties.PricingClientExitedIffEntered | 01_sample_agent/cost_estimator_agent/cost_estimator_agent.py:137-154 | the pricing client is exited exactly when it was entered successfully, right before the stop |
| CostEstimatorProperties.AgentToolOrder | 01_sample_agent/cost_estimator_agent/cost_estimator_agent.py:138-152 | the agent is built with the calculation tool first, then the listed pricing tools in order, on the default model without streaming |
| CostEstimatorProperties.MissingCredentials | 01_sample_agent/cost_estimator_agent/cost_estimator_agent.py:52-53 | missing credentials end the estimation after create, start and lookup, then stop; no pricing client, agent or run; the report carries the credentials message unless the stop fails |
| CostEstimatorProperties.AllServicesSucceed | 01_sample_agent/cost_estimator_agent/cost_estimator_agent.py:161-182 | with every service succeeding, all planned calls are made, then exit and stop, and the answer is the final text unless the stop fails |
| CostEstimatorProperties.FailuresAreReported | 01_sample_agent/cost_estimator_agent/cost_estimator_agent.py:183-186 | every failure becomes a report with the failure prefix carrying the clean-up's AttributeError exactly when a stop is made and fails, and the first failing stage's error otherwise |
| CostEstimatorProperties.InterpreterFirst | 01_sample_agent/cost_estimator_agent/cost_estimator_agent.py:134 | every estimation begins by creating an interpreter in the agent's region |

## Left out

- `GeminiModel.stream` (gemini.py:202-215) and the `genai` client (:36-40): they are network calls to a foreign SDK. The constructor keeps only the configuration.
- `GeminiModel.get_config` (gemini.py:46-48): it returns the `config` field unchanged, and that field is the model.
- JSON serialisation (`json.dumps`): it is the uninterpreted parameter `dumps`. Stack-trace text (`traceback.format_exc`) is an opaque string.
- `Json` numbers are integers only (`JNumber`); JSON floats are not represented. No contract depends on numeric values, because JSON values are only copied or handed to the opaque `dumps`.
- Gemini.FormatChunk: a non-tool `content_delta` whose `data` is not a string is passed through by the source unchecked. The model reports it as a `TypeError`, because the stream-event vocabulary carries only strings.
- Gemini.FormatChunk: the message of an `AttributeError` names only the missing attribute (`object has no attribute 'function'`). Python's message also names the payload's type (`'str' object has ...`); the provider's payload classes are not modelled, so their names are not known.
- Gemini.FormatContent: image and document blocks are one `MediaBlock` kind. Their payloads are not modelled, since the source rejects them all with `KeyError('text')`.
- Python dict shapes are modelled as records. Keys the source reads from a well-typed strands value (`toolUseId`, `name`, `inputSchema`, ...) are always present, so their `KeyError`s are not modelled.
- The strands agent loop is out: planning, tool dispatch, the iteration cap and tool-result ordering all happen inside `agent(prompt)`, which is the `runAgent` outcome. Any calculation-tool calls the agent makes during that run are not in the trace.
- CostEstimator.CostEstimatorAgent.ExitEstimationAgent: leaving the MCP client's `with` block is assumed not to raise. Stopping its subprocess is I/O.
- CostEstimator.CostEstimatorAgent.SetupAwsPricingClient: constructing `MCPClient` is assumed not to raise. `StdioServerParameters` is built inside the client's factory, so it runs only when the client is entered, and the `enterPricingClient` outcome covers its failure.
- The `BedrockModel` and `Agent` constructors share one outcome, `buildAgent`. The misspelt `temprature=0.0` keyword (cost_estimator_agent.py:144) is accepted as an extra setting and does not set the temperature, so `BedrockSettings` carries only the model, region and streaming flag.
- The system prompt text (config.py:10-49) is not modelled: it is a constant handed to the agent.
- Logging (cost_estimator_agent.py:21-28 and every logger call) is not modelled. Only the misspelt `logger.warining` matters, because it raises.
- The caller identity's content is out: it is only logged.
- `config.py` apart from the prompt template and the default model and region is out, as are `test_cost_estimator_agent.py` (CLI plumbing) and `sample_agent.py` (a thin Ollama wrapper).
- Python truthiness of an interpreter object is taken to be "not None".
