/** What the cost estimation agent guarantees about its calculation results, its final answer
    and the order of its calls to external services. */
module CostEstimatorProperties {
  import opened Wrappers
  import opened Seqs
  import opened CostEstimator

  // ----- the calculation result -----

  /** The text of every item, or the empty string for an item without one. */
  function TextsOf(items: seq<ContentItem>): seq<string> {
    seq(|items|, i requires 0 <= i < |items| => items[i].text.GetOr(""))
  }

  /** The items' contribution is the text of their text items, in item order; it fails exactly
      when some text item has no text. */
  lemma {:induction false} ItemTextsAreTextItems(items: seq<ContentItem>)
    ensures FlatMapResult(ItemText, items).Ok? <==>
      forall j :: 0 <= j < |items| && IsTextItem(items[j]) ==> items[j].text.Some?
    ensures FlatMapResult(ItemText, items).Ok? ==>
      FlatMapResult(ItemText, items).value == TextsOf(Filter(IsTextItem, items))
    ensures FlatMapResult(ItemText, items).Err? ==> FlatMapResult(ItemText, items).error == KeyError("text")
  {
    FlatMapResultSameError(ItemText, items, KeyError("text"));
    if items != [] {
      var prefix := items[..|items| - 1];
      var last := items[|items| - 1];
      assert items == prefix + [last];
      ItemTextsAreTextItems(prefix);
      FilterConcat(IsTextItem, prefix, [last]);
      FilterSingleton(IsTextItem, last);
      if FlatMapResult(ItemText, prefix).Ok? {
        FlatMapResultSnoc(ItemText, prefix, last);
        var before := Filter(IsTextItem, prefix);
        if IsTextItem(last) && last.text.Some? {
          assert TextsOf(before + [last]) == TextsOf(before) + [last.text.value];
        }
      } else {
        FlatMapResultErrPersists(ItemText, items, |prefix|);
        var j :| 0 <= j < |prefix| && IsTextItem(prefix[j]) && prefix[j].text.None?;
        assert items[j] == prefix[j];
      }
    }
  }

  /** The calculation's texts, as a reference: every event's text items, event by event. */
  function ReferenceTexts(events: seq<InterpreterEvent>): seq<string> {
    Flatten(seq(|events|, i requires 0 <= i < |events| => TextsOf(Filter(IsTextItem, EventItems(events[i])))))
  }

  /** The calculation collects the text of every text item of every event that has a result
      with content, in stream order, and fails with `KeyError('text')` exactly when one of those
      text items has no text. */
  lemma StreamTextsAreReference(events: seq<InterpreterEvent>)
    ensures StreamTexts(events).Ok? <==>
      forall i, j :: 0 <= i < |events| && 0 <= j < |EventItems(events[i])| && IsTextItem(EventItems(events[i])[j]) ==>
        EventItems(events[i])[j].text.Some?
    ensures StreamTexts(events).Ok? ==> StreamTexts(events).value == ReferenceTexts(events)
    ensures StreamTexts(events).Err? ==> StreamTexts(events).error == KeyError("text")
  {
    FlatMapResultOkIff(EventTexts, events);
    forall i | 0 <= i < |events| {
      ItemTextsAreTextItems(EventItems(events[i]));
    }
    if StreamTexts(events).Ok? {
      FlatMapResultFlatten(EventTexts, events);
      assert Values(EventTexts, events) ==
        seq(|events|, i requires 0 <= i < |events| => TextsOf(Filter(IsTextItem, EventItems(events[i]))));
    } else {
      StreamTextsErrIsEventError(events);
    }
  }

  /** A failed stream fails with the error of one of its events. */
  lemma {:induction false} StreamTextsErrIsEventError(events: seq<InterpreterEvent>)
    requires StreamTexts(events).Err?
    ensures exists i :: 0 <= i < |events| && EventTexts(events[i]) == Err(StreamTexts(events).error)
  {
    var prefix := events[..|events| - 1];
    var last := events[|events| - 1];
    assert events == prefix + [last];
    if StreamTexts(prefix).Err? {
      StreamTextsErrIsEventError(prefix);
      FlatMapResultErrPersists(EventTexts, events, |prefix|);
      var i :| 0 <= i < |prefix| && EventTexts(prefix[i]) == Err(StreamTexts(prefix).error);
      assert events[i] == prefix[i];
    } else {
      FlatMapResultSnoc(EventTexts, prefix, last);
    }
  }

  /** An empty or absent stream gives the empty string; a raising invocation gives `None`. */
  lemma CalculationResultEdges(e: Error)
    ensures CalculationResult(Response(None)) == Some("")
    ensures CalculationResult(Response(Some([]))) == Some("")
    ensures CalculationResult(Response(Some([InterpreterEvent(None)]))) == Some("")
    ensures CalculationResult(InvokeRaised(e)) == None
  {
  }

  /** The collected texts are recovered by splitting the result at newlines, when they contain
      none themselves. */
  lemma CalculationResultSplits(events: seq<InterpreterEvent>)
    requires StreamTexts(events).Ok? && |StreamTexts(events).value| > 0
    requires forall i :: 0 <= i < |StreamTexts(events).value| ==> '\n' !in StreamTexts(events).value[i]
    ensures CalculationResult(Response(Some(events))).Some?
    ensures Split('\n', CalculationResult(Response(Some(events))).value) == StreamTexts(events).value
  {
    SplitJoin('\n', StreamTexts(events).value);
  }

  // ----- the final answer -----

  predicate IsTextEntry(b: ResultBlock) {
    b.TextEntry?
  }

  /** The texts of some text blocks. */
  function EntryTexts(blocks: seq<ResultBlock>): seq<string>
    requires forall i :: 0 <= i < |blocks| ==> blocks[i].TextEntry?
  {
    seq(|blocks|, i requires 0 <= i < |blocks| => blocks[i].text)
  }

  /** The text parts are the texts of the text blocks, in block order; other blocks are skipped. */
  lemma {:induction false} TextPartsAreTextEntries(blocks: seq<ResultBlock>)
    ensures TextParts(blocks) == EntryTexts(Filter(IsTextEntry, blocks))
  {
    if blocks != [] {
      var prefix := blocks[..|blocks| - 1];
      var last := blocks[|blocks| - 1];
      assert blocks == prefix + [last];
      TextPartsAreTextEntries(prefix);
      FilterConcat(IsTextEntry, prefix, [last]);
      FilterSingleton(IsTextEntry, last);
      var before := Filter(IsTextEntry, prefix);
      if last.TextEntry? {
        assert Filter(IsTextEntry, blocks) == before + [last];
        EntryTextsSnoc(before, last);
      } else {
        assert Filter(IsTextEntry, blocks) == before;
      }
    }
  }

  /** One more text block adds its text at the end. */
  lemma EntryTextsSnoc(blocks: seq<ResultBlock>, b: ResultBlock)
    requires forall i :: 0 <= i < |blocks| ==> blocks[i].TextEntry?
    requires b.TextEntry?
    ensures EntryTexts(blocks + [b]) == EntryTexts(blocks) + [b.text]
  {
  }

  /** The answer's fallbacks: "No estimation result." when there is no message or it has no
      content, "No text content found." when the content has no text block, and otherwise the
      concatenated texts of the text blocks. */
  lemma FinalTextCases(result: AgentResult)
    ensures result.message.None? || result.message.value.content.None? || result.message.value.content.value == [] ==>
      FinalText(result) == NoEstimationResult
    ensures result.message.Some? && result.message.value.content.Some? && result.message.value.content.value != [] ==>
      var blocks := result.message.value.content.value;
      && ((forall i :: 0 <= i < |blocks| ==> !blocks[i].TextEntry?) ==> FinalText(result) == NoTextContent)
      && ((exists i :: 0 <= i < |blocks| && blocks[i].TextEntry?) ==>
            FinalText(result) == Flatten(EntryTexts(Filter(IsTextEntry, blocks))))
  {
    if result.message.Some? && result.message.value.content.Some? {
      TextPartsAreTextEntries(result.message.value.content.value);
    }
  }

  /** A successful estimation can answer with the empty string: a single text block whose text
      is empty is neither missing content nor missing text. */
  lemma FinalTextMayBeEmpty()
    ensures FinalText(AgentResult(Some(FinalMessage(Some([TextEntry(""), NotADict]))))) == ""
  {
    var blocks := [TextEntry(""), NotADict];
    assert blocks[..1] == [TextEntry("")];
    assert blocks[..1][..0] == [];
    assert TextParts(blocks) == [""];
  }

  // ----- the lifecycle of one estimation -----

  /** The pricing client is entered only after the interpreter session was started. */
  lemma StartBeforePricingClient(s: Services, region: string, prompt: string, held: bool)
    ensures var calls := ExpectedCalls(s, region, prompt, held);
      forall j :: 0 <= j < |calls| && calls[j].EnterPricingClient? ==> StartInterpreter in calls[..j]
  {
    var calls := ExpectedCalls(s, region, prompt, held);
    var k := FirstFailure(s);
    var plan := Planned(s, region, prompt);
    var cut := plan[..if k < 9 then k + 1 else 9];
    forall j | 0 <= j < |calls| && calls[j].EnterPricingClient? ensures StartInterpreter in calls[..j] {
      if j < |cut| {
        assert calls[j] == plan[j];
        assert j == 5;
        assert calls[1] == StartInterpreter;
      }
    }
  }

  /** The interpreter is stopped exactly when clean-up finds one, and then as the very last
      call and only once. */
  lemma StopIsLast(s: Services, region: string, prompt: string, held: bool)
    ensures var calls := ExpectedCalls(s, region, prompt, held);
      && (Stops(s, held) <==> |calls| > 0 && calls[|calls| - 1] == StopInterpreter)
      && (forall i :: 0 <= i < |calls| - 1 ==> calls[i] != StopInterpreter)
  {
  }

  /** The pricing client is exited exactly when it was entered successfully, and then right
      before the interpreter is stopped. */
  lemma PricingClientExitedIffEntered(s: Services, region: string, prompt: string, held: bool)
    ensures var calls := ExpectedCalls(s, region, prompt, held);
      && (ExitPricingClient in calls <==> ListPricingTools in calls)
      && (ExitPricingClient in calls ==>
            calls[|calls| - 1 - (if Stops(s, held) then 1 else 0)] == ExitPricingClient)
  {
    var calls := ExpectedCalls(s, region, prompt, held);
    var k := FirstFailure(s);
    var plan := Planned(s, region, prompt);
    var cut := plan[..if k < 9 then k + 1 else 9];
    assert forall i :: 0 <= i < |cut| ==> cut[i] == plan[i] && plan[i] != ExitPricingClient;
    if k > 5 {
      assert calls[6] == ListPricingTools;
    } else {
      assert forall i :: 0 <= i < |calls| ==> calls[i] != ListPricingTools;
    }
  }

  /** The agent is built with the calculation tool first and then every pricing tool, in the
      order the pricing client listed them, on the default model without streaming. */
  lemma AgentToolOrder(s: Services, region: string, prompt: string, held: bool)
    ensures var calls := ExpectedCalls(s, region, prompt, held);
      forall j :: 0 <= j < |calls| && calls[j].BuildAgent? ==>
        && s.listTools.Ok?
        && calls[j].agent.tools == AgentTools(s.listTools.value)
        && calls[j].agent.model == BedrockSettings(DefaultModel, region, false)
  {
  }

  /** Missing credentials stop the estimation right after the lookup: the pricing client is
      never entered, the agent never built or run, the session is stopped, and the report
      carries the credentials message unless the stop fails. */
  lemma MissingCredentials(s: Services, region: string, prompt: string, held: bool)
    requires s.createInterpreter.Ok? && s.startInterpreter.Pass? && s.credentials.NoCredentials?
    ensures ExpectedCalls(s, region, prompt, held) ==
      [CreateInterpreter(region), StartInterpreter, LookupCredentials, StopInterpreter]
    ensures ExpectedReport(s, held) ==
      FailureReport(if s.stopInterpreter.Fail? then LoggerTypoError else NoCredentialsError, s.traceback)
  {
  }

  /** When every service succeeds, the estimation makes every planned call, exits the pricing
      client, stops the session, and answers the agent's final text unless the stop fails. */
  lemma AllServicesSucceed(s: Services, region: string, prompt: string, held: bool)
    requires FirstFailure(s) == 9
    ensures ExpectedCalls(s, region, prompt, held) == Planned(s, region, prompt) + [ExitPricingClient, StopInterpreter]
    ensures ExpectedReport(s, held) ==
      if s.stopInterpreter.Fail? then FailureReport(LoggerTypoError, s.traceback) else FinalText(s.runAgent.value)
  {
  }

  /** A failing stage or a failing stop always turns into a report that starts with the failure
      prefix and carries the raised error's message. */
  lemma FailuresAreReported(s: Services, held: bool)
    requires FirstFailure(s) < 9 || (Stops(s, held) && s.stopInterpreter.Fail?)
    ensures var report := ExpectedReport(s, held);
      && |FailurePrefix| <= |report| && report[..|FailurePrefix|] == FailurePrefix
      && (exists e: Error :: report == FailureReport(e, s.traceback)
            && e == (if Stops(s, held) && s.stopInterpreter.Fail? then LoggerTypoError else FirstError(s)))
  {
  }

  /** The interpreter session started by the estimation is the first service touched: the
      trace starts by creating it in the agent's region. */
  lemma InterpreterFirst(s: Services, region: string, prompt: string, held: bool)
    ensures var calls := ExpectedCalls(s, region, prompt, held);
      |calls| > 0 && calls[0] == CreateInterpreter(region)
  {
  }
}
