/** The AWS cost estimation agent: it starts a code interpreter session, builds a pricing-tool
    client from the caller's AWS credentials, runs an agent over both, and always closes the
    session again.

    The external services it talks to (the code interpreter, the AWS credential chain and STS,
    the pricing MCP server, the Bedrock model and the agent) are not modelled: what each call
    returns, or the error it raises, is read from a `Services` record, and every call the agent
    makes is appended to the ghost trace `calls`, so that ordering and clean-up can be stated. */
module CostEstimator {
  import opened Wrappers
  import opened Seqs

  // ----- constants -----

  const DefaultRegion: string := "us-east-1"
  const DefaultModel: string := "amazon.nova-micro-v1:0"

  const NotInitialized: string := "✖️ Code interpreter not initialized"
  const NoTextContent: string := "No text content found."
  const NoEstimationResult: string := "No estimation result."
  const FailurePrefix: string := "🆖 Cost estimation failed: "
  const StacktraceSeparator: string := "\n\n Stacktrace:\n"

  /** A missing credential chain raises a plain `Exception` with this message. */
  const NoCredentialsError: Error := Error("Exception", "✖️ No AWS credentials found")

  /** The handler of a failed `stop()` calls `logger.warining`, which does not exist, so the
      handler itself raises this. */
  const LoggerTypoError: Error := Error("AttributeError", "'Logger' object has no attribute 'warining'")

  const PricingCommand: string := "uvx"
  const PricingServerPackage: string := "awslabs.aws-pricing-mcp-server@latest"

  /** The cost estimation prompt template with the architecture description filled in. */
  function CostEstimationPrompt(description: string): (prompt: string)
    ensures |prompt| == |description| + 69
    ensures prompt[68..68 + |description|] == description
  {
    "\nPlease analyze this architecture and provide an AWS cost estimate:\n" + description + "\n"
  }

  /** The report `estimate_costs` returns for an error and its formatted stack trace. */
  function FailureReport(e: Error, traceback: string): (report: string)
    ensures |FailurePrefix| <= |report| && report[..|FailurePrefix|] == FailurePrefix
    ensures e.message + StacktraceSeparator + traceback == report[|FailurePrefix|..]
  {
    FailurePrefix + e.message + StacktraceSeparator + traceback
  }

  // ----- credentials and the pricing server -----

  /** `credentials.get_frozen_credentials()` */
  datatype FrozenCredentials = FrozenCredentials(accessKey: string, secretKey: string, token: Option<string>)

  /** `boto3.Session().get_credentials()`: it raises, finds nothing, or finds credentials. */
  datatype CredentialLookup = LookupRaised(error: Error) | NoCredentials | Found

  /** Python truthiness of an optional string. */
  predicate Truthy(token: Option<string>) {
    token.Some? && token.value != ""
  }

  /** The credential dict: access key, secret key and region, and the session token only when
      there is a non-empty one. */
  function CredentialDict(frozen: FrozenCredentials, region: string): (r: map<string, string>)
    ensures r.Keys == {"AWS_ACCESS_KEY_ID", "AWS_SECRET_ACCESS_KEY", "AWS_REGION"} +
      (if Truthy(frozen.token) then {"AWS_SESSION_TOKEN"} else {})
    ensures "AWS_SESSION_TOKEN" in r <==> Truthy(frozen.token)
    ensures r["AWS_ACCESS_KEY_ID"] == frozen.accessKey && r["AWS_SECRET_ACCESS_KEY"] == frozen.secretKey
    ensures r["AWS_REGION"] == region
    ensures Truthy(frozen.token) ==> r["AWS_SESSION_TOKEN"] == frozen.token.value
  {
    var base := map["AWS_ACCESS_KEY_ID" := frozen.accessKey, "AWS_SECRET_ACCESS_KEY" := frozen.secretKey, "AWS_REGION" := region];
    if Truthy(frozen.token) then base["AWS_SESSION_TOKEN" := frozen.token.value] else base
  }

  /** The pricing server's environment: `FASTMCP_LOG_LEVEL=ERROR`, overlaid by the credentials. */
  function PricingServerEnvironment(credentials: map<string, string>): (env: map<string, string>)
    ensures env.Keys == {"FASTMCP_LOG_LEVEL"} + credentials.Keys
    ensures forall k :: k in credentials ==> env[k] == credentials[k]
    ensures "FASTMCP_LOG_LEVEL" !in credentials ==> env["FASTMCP_LOG_LEVEL"] == "ERROR"
  {
    map["FASTMCP_LOG_LEVEL" := "ERROR"] + credentials
  }

  /** The stdio parameters of the pricing MCP server. */
  datatype PricingServer = PricingServer(command: string, args: seq<string>, env: map<string, string>)

  function PricingServerFor(credentials: map<string, string>): PricingServer {
    PricingServer(PricingCommand, [PricingServerPackage], PricingServerEnvironment(credentials))
  }

  // ----- the code interpreter's result stream -----

  /** One content item of a result: its `type` and `text` keys, when present. */
  datatype ContentItem = ContentItem(itemType: Option<string>, text: Option<string>)

  /** The `result` of an event; `content` is absent when `None`. */
  datatype InvocationResult = InvocationResult(content: Option<seq<ContentItem>>)

  /** One event of the response stream; `result` is absent when `None`. */
  datatype InterpreterEvent = InterpreterEvent(result: Option<InvocationResult>)

  /** What `invoke` does: it raises, or returns a response whose `stream` may be absent. */
  datatype InvokeResponse = InvokeRaised(error: Error) | Response(stream: Option<seq<InterpreterEvent>>)

  predicate IsTextItem(item: ContentItem) {
    item.itemType == Some("text")
  }

  /** What one content item contributes: its text when it is a text item, which raises
      `KeyError('text')` when the item has none; nothing otherwise. */
  function ItemText(item: ContentItem): (r: Result<seq<string>>)
    ensures r.Err? <==> IsTextItem(item) && item.text.None?
    ensures r.Err? ==> r.error == KeyError("text")
    ensures r.Ok? ==> |r.value| <= 1 && (r.value != [] <==> IsTextItem(item))
    ensures r.Ok? && r.value != [] ==> r.value[0] == item.text.value
  {
    if !IsTextItem(item) then Ok([])
    else if item.text.Some? then Ok([item.text.value])
    else Err(KeyError("text"))
  }

  /** The content items of an event that has a result with content. */
  function EventItems(event: InterpreterEvent): (r: seq<ContentItem>)
    ensures r != [] ==> event.result.Some? && event.result.value.content == Some(r)
    ensures event.result.Some? && event.result.value.content.Some? ==> r == event.result.value.content.value
  {
    if event.result.Some? && event.result.value.content.Some? then event.result.value.content.value else []
  }

  /** The texts of one event's items; the first text item without text raises. */
  function EventTexts(event: InterpreterEvent): (r: Result<seq<string>>)
    ensures r.Err? ==> r.error == KeyError("text")
  {
    FlatMapResultSameError(ItemText, EventItems(event), KeyError("text"));
    FlatMapResult(ItemText, EventItems(event))
  }

  /** The texts the calculation collects, event after event, item after item. */
  function StreamTexts(events: seq<InterpreterEvent>): (r: Result<seq<string>>)
    ensures events == [] ==> r == Ok([])
    ensures r.Err? ==> r.error == KeyError("text")
  {
    FlatMapResultSameError(EventTexts, events, KeyError("text"));
    FlatMapResult(EventTexts, events)
  }

  /** What `execute_cost_calculation` returns for an initialised interpreter: the collected
      texts joined by newlines, or `None` once an exception was caught. */
  function CalculationResult(response: InvokeResponse): (r: Option<string>)
    ensures response.InvokeRaised? ==> r.None?
    ensures response.Response? ==> (r.Some? <==> StreamTexts(response.stream.GetOr([])).Ok?)
  {
    match response
    case InvokeRaised(_) => None
    case Response(stream) =>
      match StreamTexts(stream.GetOr([]))
      case Err(_) => None
      case Ok(texts) => Some(Join("\n", texts))
  }

  /** Collecting one more event: its failure is the whole stream's failure, its success appends
      its texts. */
  lemma StreamTextsStep(events: seq<InterpreterEvent>, i: nat, done: seq<string>)
    requires i < |events| && StreamTexts(events[..i]) == Ok(done)
    ensures EventTexts(events[i]).Err? ==> StreamTexts(events) == Err(EventTexts(events[i]).error)
    ensures EventTexts(events[i]).Ok? ==> StreamTexts(events[..i + 1]) == Ok(done + EventTexts(events[i]).value)
  {
    assert events[..i + 1] == events[..i] + [events[i]];
    FlatMapResultSnoc(EventTexts, events[..i], events[i]);
    if EventTexts(events[i]).Err? {
      FlatMapResultErrPersists(EventTexts, events, i + 1);
    }
  }

  /** The inner loop of `execute_cost_calculation` over one event's content items: the text of
      each text item, in order; a text item without text raises. */
  method CollectEventTexts(event: InterpreterEvent) returns (r: Result<seq<string>>)
    ensures r == EventTexts(event)
  {
    var items := EventItems(event);
    var texts: seq<string> := [];
    var j := 0;
    while j < |items|
      invariant 0 <= j <= |items|
      invariant FlatMapResult(ItemText, items[..j]) == Ok(texts)
    {
      var item := items[j];
      assert items[..j + 1] == items[..j] + [item];
      FlatMapResultSnoc(ItemText, items[..j], item);
      if IsTextItem(item) {
        if item.text.None? {
          FlatMapResultErrPersists(ItemText, items, j + 1);
          return Err(KeyError("text"));
        }
        assert ItemText(item) == Ok([item.text.value]);
        texts := texts + [item.text.value];
      } else {
        assert ItemText(item) == Ok([]);
        assert texts + [] == texts;
      }
      j := j + 1;
    }
    assert items[..|items|] == items;
    r := Ok(texts);
  }

  /** The nested loop of `execute_cost_calculation`: every event's texts, event after event. */
  method CollectTexts(events: seq<InterpreterEvent>) returns (r: Result<seq<string>>)
    ensures r == StreamTexts(events)
  {
    var results: seq<string> := [];
    for i := 0 to |events|
      invariant StreamTexts(events[..i]) == Ok(results)
    {
      StreamTextsStep(events, i, results);
      var texts := CollectEventTexts(events[i]);
      if texts.Err? {
        return Err(texts.error);
      }
      results := results + texts.value;
    }
    assert events[..|events|] == events;
    r := Ok(results);
  }

  // ----- the final answer -----

  /** A block of the final message's content: a dict with a `text` key, a dict without one, or
      something that is not a dict. */
  datatype ResultBlock = TextEntry(text: string) | EntryWithoutText | NotADict

  /** The final message; `content` is absent when `None`. */
  datatype FinalMessage = FinalMessage(content: Option<seq<ResultBlock>>)

  /** The agent's result; `message` is absent or falsy when `None`. */
  datatype AgentResult = AgentResult(message: Option<FinalMessage>)

  /** The texts of the text blocks, in block order. */
  function TextParts(blocks: seq<ResultBlock>): (parts: seq<string>)
    ensures |parts| <= |blocks|
    ensures parts == [] <==> forall i :: 0 <= i < |blocks| ==> !blocks[i].TextEntry?
  {
    if blocks == [] then []
    else
      var last := blocks[|blocks| - 1];
      TextParts(blocks[..|blocks| - 1]) + (if last.TextEntry? then [last.text] else [])
  }

  /** The loop of `estimate_costs` that collects the text parts. */
  method CollectTextParts(blocks: seq<ResultBlock>) returns (parts: seq<string>)
    ensures parts == TextParts(blocks)
  {
    parts := [];
    for i := 0 to |blocks|
      invariant parts == TextParts(blocks[..i])
    {
      assert blocks[..i + 1][..i] == blocks[..i];
      if blocks[i].TextEntry? {
        parts := parts + [blocks[i].text];
      }
    }
    assert blocks[..|blocks|] == blocks;
  }

  /** The answer of a successful estimation: the text parts concatenated, with a fallback when
      there are none and another when the message has no content. */
  function FinalText(result: AgentResult): (text: string)
    ensures result.message.None? || result.message.value.content.GetOr([]) == [] ==> text == NoEstimationResult
    ensures result.message.Some? && result.message.value.content.GetOr([]) != [] ==>
      var blocks := result.message.value.content.value;
      (forall i :: 0 <= i < |blocks| ==> !blocks[i].TextEntry?) ==> text == NoTextContent
  {
    if result.message.Some? && result.message.value.content.Some? && result.message.value.content.value != [] then
      var parts := TextParts(result.message.value.content.value);
      if parts != [] then Flatten(parts) else NoTextContent
    else NoEstimationResult
  }

  /** The answer block of `estimate_costs`: the collected text parts joined, or a fallback. */
  method ComposeAnswer(result: AgentResult) returns (text: string)
    ensures text == FinalText(result)
  {
    if result.message.Some? && result.message.value.content.Some? && result.message.value.content.value != [] {
      var parts := CollectTextParts(result.message.value.content.value);
      text := if parts != [] then Flatten(parts) else NoTextContent;
    } else {
      text := NoEstimationResult;
    }
  }

  // ----- the session lifecycle -----

  /** A code interpreter session handle. */
  datatype Interpreter = Interpreter(sessionId: string)

  /** A tool handed to the agent: the calculation tool, or a pricing tool by name. */
  datatype AgentTool = CalculationTool | PricingTool(name: string)

  /** The Bedrock model settings the agent is built with. */
  datatype BedrockSettings = BedrockSettings(modelId: string, region: string, streaming: bool)

  datatype Agent = Agent(model: BedrockSettings, tools: seq<AgentTool>)

  function ModelSettings(region: string): BedrockSettings {
    BedrockSettings(DefaultModel, region, false)
  }

  /** The agent's tools: the calculation tool first, then the pricing tools in listed order. */
  function AgentTools(names: seq<string>): (r: seq<AgentTool>)
    ensures |r| == 1 + |names| && r[0] == CalculationTool
    ensures forall i :: 0 <= i < |names| ==> r[i + 1] == PricingTool(names[i])
  {
    [CalculationTool] + seq(|names|, i requires 0 <= i < |names| => PricingTool(names[i]))
  }

  /** A call to an external service. */
  datatype Call =
    | CreateInterpreter(region: string)
    | StartInterpreter
    | InvokeInterpreter(operation: string, language: string, code: string)
    | StopInterpreter
    | LookupCredentials
    | GetCallerIdentity(identityRegion: string)
    | FreezeCredentials
    | EnterPricingClient(server: PricingServer)
    | ListPricingTools
    | ExitPricingClient
    | BuildAgent(agent: Agent)
    | RunAgent(prompt: string)

  /** What each external call of one estimation does. */
  datatype Services = Services(
    createInterpreter: Result<Interpreter>,
    startInterpreter: Outcome,
    credentials: CredentialLookup,
    callerIdentity: Outcome,
    frozen: Result<FrozenCredentials>,
    enterPricingClient: Outcome,
    listTools: Result<seq<string>>,
    buildAgent: Outcome,
    runAgent: Result<AgentResult>,
    stopInterpreter: Outcome,
    traceback: string)

  /** The stage that fails first, counting the calls of `Planned` from 0; 9 when none fails. */
  function FirstFailure(s: Services): (k: nat)
    ensures k <= 9
  {
    if s.createInterpreter.Err? then 0
    else if s.startInterpreter.Fail? then 1
    else if !s.credentials.Found? then 2
    else if s.callerIdentity.Fail? then 3
    else if s.frozen.Err? then 4
    else if s.enterPricingClient.Fail? then 5
    else if s.listTools.Err? then 6
    else if s.buildAgent.Fail? then 7
    else if s.runAgent.Err? then 8
    else 9
  }

  /** The error the first failing stage raises. */
  function FirstError(s: Services): Error
    requires FirstFailure(s) < 9
  {
    if s.createInterpreter.Err? then s.createInterpreter.error
    else if s.startInterpreter.Fail? then s.startInterpreter.error
    else if s.credentials.LookupRaised? then s.credentials.error
    else if s.credentials.NoCredentials? then NoCredentialsError
    else if s.callerIdentity.Fail? then s.callerIdentity.error
    else if s.frozen.Err? then s.frozen.error
    else if s.enterPricingClient.Fail? then s.enterPricingClient.error
    else if s.listTools.Err? then s.listTools.error
    else if s.buildAgent.Fail? then s.buildAgent.error
    else s.runAgent.error
  }

  /** The calls of setting the agent up, in order, when nothing fails. */
  function SetupPlan(s: Services, region: string): (r: seq<Call>)
    ensures |r| == 8
  {
    [CreateInterpreter(region), StartInterpreter, LookupCredentials, GetCallerIdentity(region), FreezeCredentials,
     EnterPricingClient(PricingServerFor(CredentialDict(s.frozen.GetOr(FrozenCredentials("", "", None)), region))),
     ListPricingTools,
     BuildAgent(Agent(ModelSettings(region), AgentTools(s.listTools.GetOr([]))))]
  }

  /** The calls of an estimation, in order, when nothing fails. */
  function Planned(s: Services, region: string, prompt: string): (r: seq<Call>)
    ensures |r| == 9
  {
    SetupPlan(s, region) + [RunAgent(prompt)]
  }

  /** Clean-up finds an interpreter to stop: one was created, or one was held already. */
  predicate Stops(s: Services, held: bool) {
    s.createInterpreter.Ok? || held
  }

  /** The calls of an estimation: the planned calls up to and including the first that fails,
      then the pricing client's exit if it was entered, then the interpreter's stop if one is
      held. */
  function ExpectedCalls(s: Services, region: string, prompt: string, held: bool): (calls: seq<Call>)
    ensures (|calls| > 8 && calls[8] == RunAgent(prompt)) <==> FirstFailure(s) >= 8
  {
    var k := FirstFailure(s);
    Planned(s, region, prompt)[..if k < 9 then k + 1 else 9]
    + (if k > 5 then [ExitPricingClient] else [])
    + (if Stops(s, held) then [StopInterpreter] else [])
  }

  /** The calls of an estimation, split where `estimate_costs` splits them: the setup fails, or
      the agent is run. */
  lemma ExpectedCallsByPhase(s: Services, region: string, prompt: string, held: bool)
    ensures var k := FirstFailure(s);
      k < 8 ==> (ExpectedCalls(s, region, prompt, held) ==
        SetupPlan(s, region)[..k + 1] + (if k > 5 then [ExitPricingClient] else [])
        + (if Stops(s, held) then [StopInterpreter] else []))
    ensures FirstFailure(s) >= 8 ==> (ExpectedCalls(s, region, prompt, held) ==
      Planned(s, region, prompt) + [ExitPricingClient] + (if Stops(s, held) then [StopInterpreter] else []))
  {
    var k := FirstFailure(s);
    if k < 8 {
      assert Planned(s, region, prompt)[..k + 1] == SetupPlan(s, region)[..k + 1];
    } else {
      assert Planned(s, region, prompt)[..9] == Planned(s, region, prompt);
    }
  }

  /** What an estimation returns: a failed stop overrides everything, then the first failure,
      and otherwise the agent's final text. */
  function ExpectedReport(s: Services, held: bool): (report: string)
    ensures Stops(s, held) && s.stopInterpreter.Fail? ==> report == FailureReport(LoggerTypoError, s.traceback)
    ensures FirstFailure(s) < 9 && !(Stops(s, held) && s.stopInterpreter.Fail?) ==> report == FailureReport(FirstError(s), s.traceback)
    ensures FirstFailure(s) == 9 && !(Stops(s, held) && s.stopInterpreter.Fail?) ==> report == FinalText(s.runAgent.value)
  {
    if Stops(s, held) && s.stopInterpreter.Fail? then FailureReport(LoggerTypoError, s.traceback)
    else if FirstFailure(s) < 9 then FailureReport(FirstError(s), s.traceback)
    else FinalText(s.runAgent.value)
  }

  /** The error that leaves a clean-up: the clean-up's own when it raised, otherwise the one
      that was already propagating. */
  function Replaced(cleanupError: Option<Error>, e: Error): Error {
    if cleanupError.Some? then cleanupError.value else e
  }

  class CostEstimatorAgent {
    const region: string
    var codeInterpreter: Option<Interpreter>
    ghost var calls: seq<Call>

    /** `__init__`: no interpreter session yet. */
    constructor (region: string := DefaultRegion)
      ensures this.region == region && codeInterpreter == None && calls == []
    {
      this.region := region;
      codeInterpreter := None;
      calls := [];
    }

    /** _setup_code_interpreter: the new session is stored before it is started, so a session
        whose start raised is still held. */
    method SetupCodeInterpreter(s: Services) returns (raised: Outcome)
      modifies this
      ensures s.createInterpreter.Err? ==>
        raised == Fail(s.createInterpreter.error) && codeInterpreter == old(codeInterpreter)
        && calls == old(calls) + [CreateInterpreter(region)]
      ensures s.createInterpreter.Ok? ==>
        raised == s.startInterpreter && codeInterpreter == Some(s.createInterpreter.value)
        && calls == old(calls) + [CreateInterpreter(region), StartInterpreter]
    {
      calls := calls + [CreateInterpreter(region)];
      if s.createInterpreter.Err? {
        return Fail(s.createInterpreter.error);
      }
      codeInterpreter := Some(s.createInterpreter.value);
      calls := calls + [StartInterpreter];
      raised := s.startInterpreter;
    }

    /** _get_aws_credentials: missing credentials raise; the caller identity is fetched before
        the credentials are frozen into the dict. */
    method GetAwsCredentials(s: Services) returns (r: Result<map<string, string>>)
      modifies this
      ensures codeInterpreter == old(codeInterpreter)
      ensures s.credentials.LookupRaised? ==> r == Err(s.credentials.error) && calls == old(calls) + [LookupCredentials]
      ensures s.credentials.NoCredentials? ==> r == Err(NoCredentialsError) && calls == old(calls) + [LookupCredentials]
      ensures s.credentials.Found? && s.callerIdentity.Fail? ==>
        r == Err(s.callerIdentity.error) && calls == old(calls) + [LookupCredentials, GetCallerIdentity(region)]
      ensures s.credentials.Found? && s.callerIdentity.Pass? ==>
        calls == old(calls) + [LookupCredentials, GetCallerIdentity(region), FreezeCredentials]
        && r == (if s.frozen.Err? then Err(s.frozen.error) else Ok(CredentialDict(s.frozen.value, region)))
    {
      calls := calls + [LookupCredentials];
      match s.credentials {
        case LookupRaised(e) => return Err(e);
        case NoCredentials => return Err(NoCredentialsError);
        case Found =>
      }
      calls := calls + [GetCallerIdentity(region)];
      if s.callerIdentity.Fail? {
        return Err(s.callerIdentity.error);
      }
      calls := calls + [FreezeCredentials];
      if s.frozen.Err? {
        return Err(s.frozen.error);
      }
      var frozen := s.frozen.value;
      var credentialDict := map["AWS_ACCESS_KEY_ID" := frozen.accessKey, "AWS_SECRET_ACCESS_KEY" := frozen.secretKey,
                                "AWS_REGION" := region];
      if Truthy(frozen.token) {
        credentialDict := credentialDict["AWS_SESSION_TOKEN" := frozen.token.value];
      }
      r := Ok(credentialDict);
    }

    /** _setup_aws_pricing_client: the server runs `uvx` on the pricing package with the
        credentials in its environment; nothing is launched until the client is entered. */
    method SetupAwsPricingClient(s: Services) returns (r: Result<PricingServer>)
      modifies this
      ensures codeInterpreter == old(codeInterpreter)
      ensures s.credentials.LookupRaised? ==> r == Err(s.credentials.error) && calls == old(calls) + [LookupCredentials]
      ensures s.credentials.NoCredentials? ==> r == Err(NoCredentialsError) && calls == old(calls) + [LookupCredentials]
      ensures s.credentials.Found? && s.callerIdentity.Fail? ==>
        r == Err(s.callerIdentity.error) && calls == old(calls) + [LookupCredentials, GetCallerIdentity(region)]
      ensures s.credentials.Found? && s.callerIdentity.Pass? ==>
        calls == old(calls) + [LookupCredentials, GetCallerIdentity(region), FreezeCredentials]
        && r == (if s.frozen.Err? then Err(s.frozen.error) else Ok(PricingServerFor(CredentialDict(s.frozen.value, region))))
    {
      var credentials := GetAwsCredentials(s);
      if credentials.Err? {
        return Err(credentials.error);
      }
      var environment := map["FASTMCP_LOG_LEVEL" := "ERROR"] + credentials.value;
      r := Ok(PricingServer(PricingCommand, [PricingServerPackage], environment));
    }

    /** execute_cost_calculation: without a session it answers the fixed message and calls
        nothing; otherwise it runs the code and returns the joined texts, or `None` when an
        exception was caught. */
    method ExecuteCostCalculation(calculationCode: string, description: string, response: InvokeResponse)
      returns (r: Option<string>)
      modifies this
      ensures codeInterpreter == old(codeInterpreter)
      ensures old(codeInterpreter).None? ==> r == Some(NotInitialized) && calls == old(calls)
      ensures old(codeInterpreter).Some? ==>
        r == CalculationResult(response)
        && calls == old(calls) + [InvokeInterpreter("executeCode", "python", calculationCode)]
    {
      if codeInterpreter.None? {
        return Some(NotInitialized);
      }
      calls := calls + [InvokeInterpreter("executeCode", "python", calculationCode)];
      if response.InvokeRaised? {
        return None;
      }
      var texts := CollectTexts(response.stream.GetOr([]));
      if texts.Err? {
        return None;
      }
      r := Some(Join("\n", texts.value));
    }

    /** cleanup: a held session is stopped and the field is reset whatever `stop()` does; the
        handler of a failed stop raises, after the reset. Without a session nothing is called. */
    method Cleanup(stop: Outcome) returns (raised: Option<Error>)
      modifies this
      ensures codeInterpreter == None
      ensures old(codeInterpreter).None? ==> calls == old(calls) && raised == None
      ensures old(codeInterpreter).Some? ==>
        calls == old(calls) + [StopInterpreter] && raised == (if stop.Fail? then Some(LoggerTypoError) else None)
    {
      raised := None;
      if codeInterpreter.Some? {
        calls := calls + [StopInterpreter];
        if stop.Fail? {
          raised := Some(LoggerTypoError);
        }
        codeInterpreter := None;
      }
    }

    /** The `finally` clause of _estimation_agent while error `e` propagates. */
    method Abandon(s: Services, e: Error) returns (raised: Error)
      modifies this
      ensures codeInterpreter == None
      ensures calls == old(calls) + (if old(codeInterpreter).Some? then [StopInterpreter] else [])
      ensures raised == if old(codeInterpreter).Some? && s.stopInterpreter.Fail? then LoggerTypoError else e
    {
      var cleanupError := Cleanup(s.stopInterpreter);
      raised := Replaced(cleanupError, e);
    }

    /** The `with aws_pricing_client:` block up to the `yield`: the client is entered, its tools
        are listed and the agent is built over the calculation tool and those tools; a failure
        inside the block exits the client. */
    method UsePricingClient(s: Services, server: PricingServer) returns (r: Result<Agent>)
      modifies this
      ensures codeInterpreter == old(codeInterpreter)
      ensures s.enterPricingClient.Fail? ==>
        r == Err(s.enterPricingClient.error) && calls == old(calls) + [EnterPricingClient(server)]
      ensures s.enterPricingClient.Pass? && s.listTools.Err? ==>
        r == Err(s.listTools.error) && calls == old(calls) + [EnterPricingClient(server), ListPricingTools, ExitPricingClient]
      ensures s.enterPricingClient.Pass? && s.listTools.Ok? ==>
        var agent := Agent(ModelSettings(region), AgentTools(s.listTools.value));
        && r == (if s.buildAgent.Fail? then Err(s.buildAgent.error) else Ok(agent))
        && calls == old(calls) + [EnterPricingClient(server), ListPricingTools, BuildAgent(agent)]
             + (if s.buildAgent.Fail? then [ExitPricingClient] else [])
    {
      calls := calls + [EnterPricingClient(server)];
      if s.enterPricingClient.Fail? {
        return Err(s.enterPricingClient.error);
      }
      calls := calls + [ListPricingTools];
      if s.listTools.Err? {
        calls := calls + [ExitPricingClient];
        return Err(s.listTools.error);
      }
      var agent := Agent(ModelSettings(region), AgentTools(s.listTools.value));
      calls := calls + [BuildAgent(agent)];
      if s.buildAgent.Fail? {
        calls := calls + [ExitPricingClient];
        return Err(s.buildAgent.error);
      }
      r := Ok(agent);
    }

    /** The `try` body of _estimation_agent up to the `yield`: the interpreter is started, the
        pricing client is built, and the agent is built inside the client's `with` block. The
        planned calls are made up to the first that fails; the pricing client is exited when the
        failure is inside its block. */
    method SetUpEstimationAgent(s: Services) returns (r: Result<Agent>)
      modifies this
      ensures codeInterpreter == if s.createInterpreter.Ok? then Some(s.createInterpreter.value) else old(codeInterpreter)
      ensures FirstFailure(s) < 8 ==>
        var k := FirstFailure(s);
        && r == Err(FirstError(s))
        && calls == old(calls) + SetupPlan(s, region)[..k + 1] + (if k > 5 then [ExitPricingClient] else [])
      ensures FirstFailure(s) >= 8 ==>
        && r == Ok(Agent(ModelSettings(region), AgentTools(s.listTools.value)))
        && calls == old(calls) + SetupPlan(s, region)
    {
      ghost var plan := SetupPlan(s, region);
      ghost var k := FirstFailure(s);
      var started := SetupCodeInterpreter(s);
      if started.Fail? {
        assert k <= 1 && calls == old(calls) + plan[..k + 1];
        return Err(started.error);
      }
      assert calls == old(calls) + plan[..2];
      var server := SetupAwsPricingClient(s);
      if server.Err? {
        assert 2 <= k <= 4 && calls == old(calls) + plan[..k + 1];
        return Err(server.error);
      }
      assert 5 <= k && calls == old(calls) + plan[..5];
      ghost var setUp := calls;
      r := UsePricingClient(s, server.value);
      if r.Err? {
        assert k < 8 && calls == setUp + plan[5..k + 1] + (if k > 5 then [ExitPricingClient] else []);
      } else {
        assert k >= 8 && calls == setUp + plan[5..];
      }
    }

    /** _estimation_agent, up to the `yield`: the `try` body, and on a failure the `except` and
        `finally` clauses, which clean up and re-raise. */
    method EnterEstimationAgent(s: Services) returns (r: Result<Agent>)
      modifies this
      ensures FirstFailure(s) < 8 ==>
        var k := FirstFailure(s);
        && r.Err? && codeInterpreter == None
        && calls == old(calls) + SetupPlan(s, region)[..k + 1]
             + (if k > 5 then [ExitPricingClient] else [])
             + (if Stops(s, old(codeInterpreter).Some?) then [StopInterpreter] else [])
        && r.error == if Stops(s, old(codeInterpreter).Some?) && s.stopInterpreter.Fail? then LoggerTypoError else FirstError(s)
      ensures FirstFailure(s) >= 8 ==>
        && r == Ok(Agent(ModelSettings(region), AgentTools(s.listTools.value)))
        && codeInterpreter == Some(s.createInterpreter.value)
        && calls == old(calls) + SetupPlan(s, region)
    {
      r := SetUpEstimationAgent(s);
      if r.Err? {
        var e := Abandon(s, r.error);
        r := Err(e);
      }
    }

    /** _estimation_agent, after the `yield`: the pricing client is exited and the session is
        cleaned up; a clean-up error replaces whatever the body raised. */
    method ExitEstimationAgent(s: Services, bodyError: Option<Error>) returns (raised: Option<Error>)
      modifies this
      ensures codeInterpreter == None
      ensures calls == old(calls) + [ExitPricingClient] + (if old(codeInterpreter).Some? then [StopInterpreter] else [])
      ensures raised == if old(codeInterpreter).Some? && s.stopInterpreter.Fail? then Some(LoggerTypoError) else bodyError
    {
      calls := calls + [ExitPricingClient];
      var cleanupError := Cleanup(s.stopInterpreter);
      raised := if cleanupError.Some? then cleanupError else bodyError;
    }

    /** estimate_costs: runs the agent on the prompt inside the estimation scope and returns its
        final text; every failure, including one raised by the clean-up, becomes a report. */
    method EstimateCosts(description: string, s: Services) returns (report: string)
      modifies this
      ensures codeInterpreter == None
      ensures calls == old(calls) + ExpectedCalls(s, region, CostEstimationPrompt(description), old(codeInterpreter).Some?)
      ensures report == ExpectedReport(s, old(codeInterpreter).Some?)
    {
      ghost var held := codeInterpreter.Some?;
      ghost var prompt := CostEstimationPrompt(description);
      ghost var planned := Planned(s, region, prompt);
      ExpectedCallsByPhase(s, region, prompt, held);
      var entered := EnterEstimationAgent(s);
      if entered.Err? {
        return FailureReport(entered.error, s.traceback);
      }
      var answer := RunEstimation(description, s);
      assert calls == old(calls) + planned;
      var raised := ExitEstimationAgent(s, if answer.Err? then Some(answer.error) else None);
      if raised.Some? {
        return FailureReport(raised.value, s.traceback);
      }
      report := answer.value;
    }

    /** The body of the `with` block of `estimate_costs`: the agent is run on the prompt, and its
        result is turned into the answer. */
    method RunEstimation(description: string, s: Services) returns (answer: Result<string>)
      modifies this
      ensures codeInterpreter == old(codeInterpreter)
      ensures calls == old(calls) + [RunAgent(CostEstimationPrompt(description))]
      ensures answer == if s.runAgent.Err? then Err(s.runAgent.error) else Ok(FinalText(s.runAgent.value))
    {
      calls := calls + [RunAgent(CostEstimationPrompt(description))];
      if s.runAgent.Err? {
        return Err(s.runAgent.error);
      }
      var text := ComposeAnswer(s.runAgent.value);
      answer := Ok(text);
    }
  }
}
