/** The query facade of `execute.py` (and its copy in `setup.py`): prompt
    building, and the aggregator that concatenates every text it sees. */
module Execute {
  import opened Wrappers
  import opened Sequences
  import opened Strings
  import opened Json
  import opened Messages

  // ----- the accumulate policy -----

  function BlockText(b: Block): string {
    if b.TextBlock? then b.text else ""
  }

  function BlocksText(blocks: seq<Block>): string {
    if blocks == [] then "" else BlockText(blocks[0]) + BlocksText(blocks[1..])
  }

  /** What one message adds: the texts of its blocks when it has `content`,
      else its `text`, else nothing. */
  function MessageText(m: Message): string {
    match m
    case ContentMessage(blocks, _, _) => BlocksText(blocks)
    case TextMessage(text) => text
    case _ => ""
  }

  /** The aggregated answer: what every message adds, in stream order. */
  function AccumulatedText(messages: seq<Message>): string {
    if messages == [] then "" else MessageText(messages[0]) + AccumulatedText(messages[1..])
  }

  lemma {:induction false} BlocksTextAppend(a: seq<Block>, b: seq<Block>)
    ensures BlocksText(a + b) == BlocksText(a) + BlocksText(b)
  {
    if a == [] {
      assert a + b == b;
    } else {
      assert (a + b)[1..] == a[1..] + b;
      BlocksTextAppend(a[1..], b);
    }
  }

  /** An empty stream yields "", and aggregation distributes over
      concatenation of streams. */
  lemma {:induction false} AccumulatedTextAppend(s1: seq<Message>, s2: seq<Message>)
    ensures AccumulatedText([]) == ""
    ensures AccumulatedText(s1 + s2) == AccumulatedText(s1) + AccumulatedText(s2)
  {
    if s1 == [] {
      assert s1 + s2 == s2;
    } else {
      assert (s1 + s2)[1..] == s1[1..] + s2;
      AccumulatedTextAppend(s1[1..], s2);
    }
  }

  /** One more message adds what that message contributes. */
  lemma AccumulatedTextStep(messages: seq<Message>, i: nat)
    requires i < |messages|
    ensures AccumulatedText(messages[..i + 1]) == AccumulatedText(messages[..i]) + MessageText(messages[i])
  {
    assert messages[..i + 1] == messages[..i] + [messages[i]];
    AccumulatedTextAppend(messages[..i], [messages[i]]);
    assert AccumulatedText([messages[i]]) == MessageText(messages[i]);
  }

  /** One more block adds that block's text. */
  lemma BlocksTextStep(blocks: seq<Block>, j: nat)
    requires j < |blocks|
    ensures BlocksText(blocks[..j + 1]) == BlocksText(blocks[..j]) + BlockText(blocks[j])
  {
    assert blocks[..j + 1] == blocks[..j] + [blocks[j]];
    BlocksTextAppend(blocks[..j], [blocks[j]]);
    assert BlocksText([blocks[j]]) == BlockText(blocks[j]);
  }

  /** The aggregator loop: `result += block.text` for every text block of a
      message with `content`, `result += message.text` for a message without. */
  method Accumulate(messages: seq<Message>) returns (result: string)
    ensures result == AccumulatedText(messages)
  {
    result := "";
    for i := 0 to |messages|
      invariant result == AccumulatedText(messages[..i])
    {
      var message := messages[i];
      if message.ContentMessage? {
        var blocks := message.content;
        for j := 0 to |blocks|
          invariant result == AccumulatedText(messages[..i]) + BlocksText(blocks[..j])
        {
          var block := blocks[j];
          ghost var prefix := BlocksText(blocks[..j]);
          if block.TextBlock? {
            result := result + block.text;
            assert AccumulatedText(messages[..i]) + prefix + block.text
                == AccumulatedText(messages[..i]) + (prefix + block.text);
          } else {
            assert prefix + BlockText(block) == prefix;
          }
          BlocksTextStep(blocks, j);
        }
        assert blocks[..|blocks|] == blocks;
      } else if message.TextMessage? {
        result := result + message.text;
      } else {
        assert result + MessageText(message) == result;
      }
      AccumulatedTextStep(messages, i);
    }
    assert messages[..|messages|] == messages;
  }

  /** The texts the aggregator picks up, one entry per text block or text
      message, in stream order. */
  function BlockPieces(blocks: seq<Block>): seq<string> {
    if blocks == [] then []
    else (if blocks[0].TextBlock? then [blocks[0].text] else []) + BlockPieces(blocks[1..])
  }

  function TextPieces(messages: seq<Message>): seq<string> {
    if messages == [] then []
    else
      var here := match messages[0]
        case ContentMessage(blocks, _, _) => BlockPieces(blocks)
        case TextMessage(text) => [text]
        case _ => [];
      here + TextPieces(messages[1..])
  }

  lemma {:induction false} BlocksTextIsConcat(blocks: seq<Block>)
    ensures BlocksText(blocks) == Concat(BlockPieces(blocks))
  {
    if blocks != [] {
      BlocksTextIsConcat(blocks[1..]);
      var here := if blocks[0].TextBlock? then [blocks[0].text] else [];
      ConcatAppend(here, BlockPieces(blocks[1..]));
    }
  }

  /** The aggregated answer is the in-order concatenation of the text of every
      text-bearing block and text message in the stream. */
  lemma {:induction false} AccumulatedTextIsConcat(messages: seq<Message>)
    ensures AccumulatedText(messages) == Concat(TextPieces(messages))
  {
    if messages != [] {
      AccumulatedTextIsConcat(messages[1..]);
      var m := messages[0];
      match m {
        case ContentMessage(blocks, _, _) =>
          BlocksTextIsConcat(blocks);
          ConcatAppend(BlockPieces(blocks), TextPieces(messages[1..]));
        case TextMessage(text) =>
          ConcatAppend([text], TextPieces(messages[1..]));
        case _ =>
          assert TextPieces(messages) == TextPieces(messages[1..]);
      }
    }
  }

  /** Tool-use and tool-result blocks contribute nothing: removing one leaves
      the blocks' text unchanged. */
  lemma ToolBlocksContributeNothing(before: seq<Block>, b: Block, after: seq<Block>)
    requires !b.TextBlock?
    ensures BlocksText(before + [b] + after) == BlocksText(before + after)
  {
    BlocksTextAppend(before + [b], after);
    BlocksTextAppend(before, [b]);
    BlocksTextAppend(before, after);
  }

  /** A message with `content` never contributes its own `text` (the `elif`):
      changing that attribute leaves the aggregated answer unchanged. */
  lemma OwnTextIgnored(messages: seq<Message>, i: nat, text: Option<string>)
    requires i < |messages| && messages[i].ContentMessage?
    ensures AccumulatedText(messages[i := messages[i].(ownText := text)]) == AccumulatedText(messages)
  {
    var changed := messages[i := messages[i].(ownText := text)];
    assert messages == messages[..i] + [messages[i]] + messages[i + 1..];
    assert changed == messages[..i] + [changed[i]] + messages[i + 1..];
    AccumulatedTextAppend(messages[..i] + [messages[i]], messages[i + 1..]);
    AccumulatedTextAppend(messages[..i], [messages[i]]);
    AccumulatedTextAppend(messages[..i] + [changed[i]], messages[i + 1..]);
    AccumulatedTextAppend(messages[..i], [changed[i]]);
  }

  // ----- prompts -----

  const ContextLabel: string := "\n\nContext data: "
  const ToolHint: string :=
    "\n\nPlease use the available tools (generate_keywords, generate_description) if they would help answer this query."

  /** `json.loads(context_json) if context_json else {}`. */
  function ParseContext(contextJson: string, loads: string -> JsonValue): JsonValue {
    if contextJson != "" then loads(contextJson) else JObject([])
  }

  /** The prompt submitted by `query_claude_general`. */
  function EnhancedPrompt(prompt: string, contextData: JsonValue, dumpsIndented: JsonValue -> string): string {
    if Truthy(contextData) then prompt + ContextLabel + dumpsIndented(contextData) + ToolHint else prompt
  }

  /** An empty context leaves the prompt as it is; otherwise the prompt is
      followed by the labelled context JSON and ends with the tool hint. */
  lemma EnhancedPromptShape(prompt: string, contextData: JsonValue, dumpsIndented: JsonValue -> string)
    ensures var r := EnhancedPrompt(prompt, contextData, dumpsIndented);
            (!Truthy(contextData) ==> r == prompt) &&
            (Truthy(contextData) ==>
              IsPrefix(prompt + ContextLabel, r) && EndsWith(r, ToolHint) &&
              IsInfix(dumpsIndented(contextData), r))
  {
    if Truthy(contextData) {
      var r := EnhancedPrompt(prompt, contextData, dumpsIndented);
      assert r[..|prompt + ContextLabel|] == prompt + ContextLabel;
      InfixOfConcat(prompt + ContextLabel, dumpsIndented(contextData), ToolHint);
    }
  }

  /** The prompt submitted by `ask_claude_for_keywords`. */
  function KeywordPrompt(content: string, context: string, maxKeywords: int): string {
    "Please analyze this content and generate " + IntToDecimal(maxKeywords)
    + " relevant keywords using the generate_keywords tool. Content: " + content
    + ". Context: " + context
  }

  /** The prompt submitted by `ask_claude_for_description`. */
  function DescriptionPrompt(content: string, context: string, maxLength: int): string {
    "Please analyze this content and generate a description (max " + IntToDecimal(maxLength)
    + " chars) using the generate_description tool. Content: " + content
    + ". Context: " + context
  }

  /** The keyword prompt carries the count, the content and the context verbatim. */
  lemma KeywordPromptMentions(content: string, context: string, maxKeywords: int)
    ensures var r := KeywordPrompt(content, context, maxKeywords);
            IsInfix(IntToDecimal(maxKeywords), r) && IsInfix(content, r) && EndsWith(r, context)
  {
    InfixOfSix("Please analyze this content and generate ", IntToDecimal(maxKeywords),
               " relevant keywords using the generate_keywords tool. Content: ", content,
               ". Context: ", context);
  }

  /** The description prompt carries the length limit, the content and the context verbatim. */
  lemma DescriptionPromptMentions(content: string, context: string, maxLength: int)
    ensures var r := DescriptionPrompt(content, context, maxLength);
            IsInfix(IntToDecimal(maxLength), r) && IsInfix(content, r) && EndsWith(r, context)
  {
    InfixOfSix("Please analyze this content and generate a description (max ", IntToDecimal(maxLength),
               " chars) using the generate_description tool. Content: ", content,
               ". Context: ", context);
  }

  // ----- the facade -----

  /** `query_claude_general`: one session, one prompt, the accumulated answer.
      With no context JSON the prompt is submitted as given. */
  method QueryGeneral(prompt: string, contextJson: string, codec: Codec, runtime: Runtime) returns (r: string)
    ensures r == AccumulatedText(runtime(EnhancedPrompt(prompt, ParseContext(contextJson, codec.loads), codec.dumpsIndented)))
    ensures contextJson == "" ==> r == AccumulatedText(runtime(prompt))
  {
    var contextData := ParseContext(contextJson, codec.loads);
    var enhanced := EnhancedPrompt(prompt, contextData, codec.dumpsIndented);
    r := Accumulate(runtime(enhanced));
  }

  /** `ask_claude_for_keywords`. */
  method AskForKeywords(content: string, context: string, maxKeywords: int, runtime: Runtime) returns (r: string)
    ensures r == AccumulatedText(runtime(KeywordPrompt(content, context, maxKeywords)))
  {
    r := Accumulate(runtime(KeywordPrompt(content, context, maxKeywords)));
  }

  /** `ask_claude_for_description`. */
  method AskForDescription(content: string, context: string, maxLength: int, runtime: Runtime) returns (r: string)
    ensures r == AccumulatedText(runtime(DescriptionPrompt(content, context, maxLength)))
  {
    r := Accumulate(runtime(DescriptionPrompt(content, context, maxLength)));
  }
}
