/** What the Gemini adapter's request formatting and chunk mapping guarantee. */
module GeminiProperties {
  import opened Wrappers
  import opened Seqs
  import opened StrandsTypes
  import opened Gemini

  // ----- which conversations can be formatted -----

  /** A tool result listed by `ToolResults` comes from a tool-result block of the message, and
      every tool-result block's result is listed. */
  lemma ToolResultsOfBlocks(blocks: seq<ContentBlock>)
    ensures forall j :: 0 <= j < |ToolResults(blocks)| ==> ToolResultBlock(ToolResults(blocks)[j]) in blocks
    ensures forall i :: 0 <= i < |blocks| && blocks[i].ToolResultBlock? ==> blocks[i].toolResult in ToolResults(blocks)
  {
    var results := Filter(IsToolResultBlock, blocks);
    FilterSubset(IsToolResultBlock, blocks);
    forall i | 0 <= i < |blocks| && blocks[i].ToolResultBlock?
      ensures blocks[i].toolResult in ToolResults(blocks)
    {
      assert IsToolResultBlock(blocks[i]);
      var j :| 0 <= j < |results| && results[j] == blocks[i];
      assert ToolResults(blocks)[j] == blocks[i].toolResult;
    }
  }

  /** A message can be formatted exactly when each of its blocks is text, a tool use, or a tool
      result whose blocks all carry text or JSON; anything else raises `KeyError('text')`. */
  lemma MessageEntriesOkIff(m: Message, dumps: Json -> string)
    ensures MessageEntries(m, dumps).Ok? <==> forall i :: 0 <= i < |m.content| ==> Formattable(m.content[i])
    ensures MessageEntries(m, dumps).Err? ==> MessageEntries(m, dumps).error == KeyError("text")
  {
    var plain := Filter(IsPlainBlock, m.content);
    var results := ToolResults(m.content);
    ToolResultsOfBlocks(m.content);
    FilterSubset(IsPlainBlock, m.content);
    if forall i :: 0 <= i < |m.content| ==> Formattable(m.content[i]) {
      forall j | 0 <= j < |plain| ensures plain[j].TextBlock? {
        assert IsPlainBlock(plain[j]) && plain[j] in m.content;
      }
      forall j | 0 <= j < |results| ensures FormatToolMessage(results[j], dumps).Ok? {
        assert ToolResultBlock(results[j]) in m.content;
      }
    } else {
      var i :| 0 <= i < |m.content| && !Formattable(m.content[i]);
      if m.content[i].MediaBlock? {
        assert IsPlainBlock(m.content[i]);
        assert m.content[i] in plain;
      } else {
        assert m.content[i].toolResult in results;
      }
    }
  }

  /** A conversation can be formatted exactly when each of its messages can. */
  lemma ConversationEntriesOkIff(ms: seq<Message>, dumps: Json -> string)
    ensures ConversationEntries(ms, dumps).Ok? <==> forall i :: 0 <= i < |ms| ==> MessageEntries(ms[i], dumps).Ok?
  {
    FlatMapResultOkIff(EntriesOf(dumps), ms);
  }

  /** A conversation can be formatted exactly when every block of every message can. */
  lemma RequestMessagesOkIff(messages: seq<Message>, systemPrompt: Option<string>, dumps: Json -> string)
    ensures RequestMessages(messages, systemPrompt, dumps).Ok? <==>
      forall i, j :: 0 <= i < |messages| && 0 <= j < |messages[i].content| ==> Formattable(messages[i].content[j])
  {
    ConversationEntriesOkIff(messages, dumps);
    forall i | 0 <= i < |messages| {
      MessageEntriesOkIff(messages[i], dumps);
    }
  }

  // ----- the shape of one message's entries -----

  /** One message yields, in this order: a message with its role whose content is its plain
      blocks' text, in order, and whose tool calls are its tool uses, in order; then one tool
      message per tool-result block, in block order, which is that result's own formatted tool
      message. */
  lemma MessageEntriesShape(m: Message, dumps: Json -> string)
    requires MessageEntries(m, dumps).Ok?
    ensures var es := MessageEntries(m, dumps).value;
      var plain := Filter(IsPlainBlock, m.content);
      var uses := ToolUses(m.content);
      var results := ToolResults(m.content);
      && |es| == 1 + |results|
      && es[0].ChatMessage? && es[0].role == m.role
      && |es[0].content| == |plain|
      && (forall k :: 0 <= k < |plain| ==> plain[k].TextBlock? && es[0].content[k] == FormattedContent(plain[k].text, "text"))
      && |es[0].toolCalls| == |uses|
      && (forall k :: 0 <= k < |uses| ==> es[0].toolCalls[k] == FormatToolCall(uses[k], dumps))
      && (forall k :: 0 <= k < |results| ==>
            es[1 + k].ToolMessage? && es[1 + k].toolCallId == results[k].toolUseId
            && |es[1 + k].content| == |results[k].content|
            && es[1 + k] == FormatToolMessage(results[k], dumps).value)
  {
  }

  /** The plain blocks are exactly the blocks that are neither tool uses nor tool results, and
      the tool uses come only from tool-use blocks. */
  lemma PlainBlocksAndToolUses(blocks: seq<ContentBlock>)
    ensures forall b :: b in Filter(IsPlainBlock, blocks) <==> b in blocks && !b.ToolUseBlock? && !b.ToolResultBlock?
    ensures forall u :: u in ToolUses(blocks) <==> ToolUseBlock(u) in blocks
  {
    var uses := Filter(IsToolUseBlock, blocks);
    FilterSubset(IsToolUseBlock, blocks);
    FilterSubset(IsPlainBlock, blocks);
    forall u | ToolUseBlock(u) in blocks ensures u in ToolUses(blocks) {
      var i :| 0 <= i < |blocks| && blocks[i] == ToolUseBlock(u);
      assert IsToolUseBlock(blocks[i]);
      var j :| 0 <= j < |uses| && uses[j] == blocks[i];
      assert ToolUses(blocks)[j] == u;
    }
    forall u | u in ToolUses(blocks) ensures ToolUseBlock(u) in blocks {
      var j :| 0 <= j < |ToolUses(blocks)| && ToolUses(blocks)[j] == u;
      assert uses[j] in blocks && IsToolUseBlock(uses[j]);
    }
    forall b | b in blocks && !b.ToolUseBlock? && !b.ToolResultBlock? ensures b in Filter(IsPlainBlock, blocks) {
      var i :| 0 <= i < |blocks| && blocks[i] == b;
      assert IsPlainBlock(blocks[i]);
    }
  }

  // ----- order across messages -----

  /** The conversation's entries are the entries of each message, concatenated in message order. */
  lemma ConversationEntriesFlatten(ms: seq<Message>, dumps: Json -> string)
    requires ConversationEntries(ms, dumps).Ok?
    ensures forall i :: 0 <= i < |ms| ==> MessageEntries(ms[i], dumps).Ok?
    ensures ConversationEntries(ms, dumps).value == Flatten(Values(EntriesOf(dumps), ms))
    ensures forall i :: 0 <= i < |ms| ==> Values(EntriesOf(dumps), ms)[i] == MessageEntries(ms[i], dumps).value
  {
    FlatMapResultFlatten(EntriesOf(dumps), ms);
  }

  /** The conversation's entries are compositional: formatting `a + b` formats `a`, then `b`. */
  lemma ConversationEntriesConcat(a: seq<Message>, b: seq<Message>, dumps: Json -> string)
    requires ConversationEntries(a, dumps).Ok? && ConversationEntries(b, dumps).Ok?
    ensures ConversationEntries(a + b, dumps).Ok?
    ensures ConversationEntries(a + b, dumps).value == ConversationEntries(a, dumps).value + ConversationEntries(b, dumps).value
  {
    FlatMapResultConcat(EntriesOf(dumps), a, b);
  }

  /** A successful request message list is the system header and the entries, filtered. */
  lemma RequestMessagesValue(messages: seq<Message>, systemPrompt: Option<string>, dumps: Json -> string)
    requires ConversationEntries(messages, dumps).Ok?
    ensures RequestMessages(messages, systemPrompt, dumps) ==
      Ok(Filter(IsKept, SystemHeader(systemPrompt) + ConversationEntries(messages, dumps).value))
  {
  }

  /** Dropping empty messages keeps the order of the rest: the request messages of `a + b` are
      those of `a` followed by those of `b`. */
  lemma RequestMessagesConcat(a: seq<Message>, b: seq<Message>, systemPrompt: Option<string>, dumps: Json -> string)
    requires RequestMessages(a, systemPrompt, dumps).Ok? && RequestMessages(b, None, dumps).Ok?
    ensures RequestMessages(a + b, systemPrompt, dumps).Ok?
    ensures RequestMessages(a + b, systemPrompt, dumps).value ==
      RequestMessages(a, systemPrompt, dumps).value + RequestMessages(b, None, dumps).value
  {
    ConversationEntriesConcat(a, b, dumps);
    RequestMessagesValue(a + b, systemPrompt, dumps);
    RequestMessagesValue(a, systemPrompt, dumps);
    RequestMessagesValue(b, None, dumps);
    var ea := ConversationEntries(a, dumps).value;
    var eb := ConversationEntries(b, dumps).value;
    var header := SystemHeader(systemPrompt);
    FilterConcat3(IsKept, header, ea, eb);
    assert SystemHeader(None) + eb == eb;
  }

  /** The request messages drop exactly the entries with neither content nor tool calls. */
  lemma RequestMessagesDropsExactlyEmpty(messages: seq<Message>, systemPrompt: Option<string>, dumps: Json -> string)
    requires RequestMessages(messages, systemPrompt, dumps).Ok?
    ensures forall f :: f in RequestMessages(messages, systemPrompt, dumps).value <==>
      f in SystemHeader(systemPrompt) + ConversationEntries(messages, dumps).value && f.Kept()
  {
    var all := SystemHeader(systemPrompt) + ConversationEntries(messages, dumps).value;
    FilterSubset(IsKept, all);
    forall f | f in all && f.Kept() ensures f in RequestMessages(messages, systemPrompt, dumps).value {
      var i :| 0 <= i < |all| && all[i] == f;
      assert IsKept(all[i]);
    }
  }

  // ----- the system message -----

  /** Formatted conversation messages are never system messages. */
  lemma {:induction false} NoSystemEntries(ms: seq<Message>, dumps: Json -> string)
    requires ConversationEntries(ms, dumps).Ok?
    ensures forall k :: 0 <= k < |ConversationEntries(ms, dumps).value| ==> !ConversationEntries(ms, dumps).value[k].SystemMessage?
  {
    if ms != [] {
      NoSystemEntries(ms[..|ms| - 1], dumps);
      MessageEntriesShape(ms[|ms| - 1], dumps);
    }
  }

  /** The request starts with a system message carrying the prompt exactly when the prompt is
      non-empty, and no other request message is a system message. */
  lemma SystemMessageFirst(messages: seq<Message>, systemPrompt: Option<string>, dumps: Json -> string)
    requires RequestMessages(messages, systemPrompt, dumps).Ok?
    ensures var r := RequestMessages(messages, systemPrompt, dumps).value;
      && ((|r| > 0 && r[0].SystemMessage?) <==> systemPrompt.Some? && systemPrompt.value != "")
      && (systemPrompt.Some? && systemPrompt.value != "" ==> r[0] == SystemMessage(systemPrompt.value))
      && (forall k :: 0 < k < |r| ==> !r[k].SystemMessage?)
  {
    var entries := ConversationEntries(messages, dumps).value;
    var header := SystemHeader(systemPrompt);
    NoSystemEntries(messages, dumps);
    FilterConcat(IsKept, header, entries);
    var rest := Filter(IsKept, entries);
    FilterSubset(IsKept, entries);
    assert forall k :: 0 <= k < |rest| ==> !rest[k].SystemMessage? by {
      forall k | 0 <= k < |rest| ensures !rest[k].SystemMessage? {
        assert rest[k] in entries;
      }
    }
    if systemPrompt.Some? && systemPrompt.value != "" {
      FilterSingleton(IsKept, SystemMessage(systemPrompt.value));
    } else {
      assert header == [];
      assert Filter(IsKept, header) == [];
    }
  }

  // ----- configuration -----

  /** Updating with the same keys twice is the same as updating once, and an update with no keys
      changes nothing. */
  lemma UpdatedIdempotent(c: Config, update: Config)
    ensures c.Updated(update).Updated(update) == c.Updated(update)
    ensures c.Updated(Config(None, ParamsUnset)) == c
  {
  }

  // ----- stream chunks -----

  /** A chunk whose payload suits its type: a `chunk_type` that `format_chunk` knows, with the
      `data_type` and `data` keys it reads. */
  predicate WellFormedChunk(e: Chunk) {
    match e.chunkType
    case None => false
    case Some(t) =>
      if t == "message_start" || t == "content_stop" then true
      else if t == "content_start" then
        e.dataType.Some? && (e.dataType.value == "tool" ==> e.data.ToolData?)
      else if t == "content_delta" then
        e.dataType.Some? && (if e.dataType.value == "tool" then e.data.ToolData? else e.data.TextData?)
      else if t == "message_stop" then !e.data.NoData?
      else if t == "metadata" then e.data.UsageData?
      else false
  }

  /** `format_chunk` raises exactly on chunks that are not well formed. */
  lemma FormatChunkOkIff(e: Chunk)
    ensures FormatChunk(e).Ok? <==> WellFormedChunk(e)
  {
  }

  /** A `message_stop` chunk maps `tool_calls` to `tool_use`, `length` to `max_tokens`, and any
      other finish reason to `end_turn`. */
  lemma MessageStopReasons(e: Chunk)
    requires e.chunkType == Some("message_stop") && !e.data.NoData?
    ensures FormatChunk(e).Ok? && FormatChunk(e).value.MessageStop?
    ensures FormatChunk(e).value.stopReason.Name() == "tool_use" <==> e.data == TextData("tool_calls")
    ensures FormatChunk(e).value.stopReason.Name() == "max_tokens" <==> e.data == TextData("length")
    ensures FormatChunk(e).value.stopReason.Name() == "end_turn" <==>
      e.data != TextData("tool_calls") && e.data != TextData("length")
  {
  }

  /** A tool `content_start` carries the tool's name and id; a tool `content_delta` carries its
      arguments, or the empty string when there are none. */
  lemma ToolChunks(e: Chunk)
    requires e.dataType == Some("tool") && e.data.ToolData?
    ensures e.chunkType == Some("content_start") ==>
      FormatChunk(e) == Ok(ContentBlockStart(Some(ToolUseStart(e.data.call.name, e.data.call.id))))
    ensures e.chunkType == Some("content_delta") ==>
      FormatChunk(e) == Ok(ContentBlockDelta(ToolInputDelta(
        if e.data.call.arguments.Some? then e.data.call.arguments.value else "")))
  {
  }

  /** Text and reasoning deltas carry the chunk's text; only the tag `reasoninig_content`, as
      spelt in the source, selects a reasoning delta. */
  lemma TextChunks(e: Chunk)
    requires e.chunkType == Some("content_delta") && e.dataType.Some? && e.dataType.value != "tool" && e.data.TextData?
    ensures FormatChunk(e).Ok? && FormatChunk(e).value.ContentBlockDelta?
    ensures FormatChunk(e).value.delta.ReasoningDelta? <==> e.dataType.value == "reasoninig_content"
    ensures FormatChunk(e).value.delta.text == e.data.text
  {
  }

  /** A `metadata` chunk copies the token counts and reports a latency of 0. */
  lemma MetadataChunk(e: Chunk)
    requires e.chunkType == Some("metadata") && e.data.UsageData?
    ensures FormatChunk(e) == Ok(Metadata(Usage(e.data.promptTokens, e.data.completionTokens, e.data.totalTokens), 0))
  {
  }
}
