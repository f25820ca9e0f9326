# Meadow metadata agent: a Dafny model

This project models the Python side of the Meadow metadata agent. The agent is a
small layer between Meadow's Elixir code and an LLM agent runtime. It has three
parts:

- **Three MCP tools** in `tools.py`. `setup.py` and `query.py` repeat the
  keyword and description tools; `query.py` has its own GraphQL variant:
  - `call_graphql_endpoint` sends a GraphQL request and returns the JSON reply
    or an error text;
  - `generate_keywords` returns the most frequent words longer than three
    characters, joined by `", "`;
  - `generate_description` fills a fixed template and truncates it to
    `max_length`.
- **The client facades** (`execute.py`, copied in `setup.py`). They build a
  prompt, run one agent session and concatenate every text the session
  streams back. This is the *accumulate* policy.
- **The local query** (`query.py`). It builds a longer prompt around the user
  query and returns only the last non-empty final result of the session, or
  `"No result generated"`. This is the *final-result* policy.

Each module covers one part:

| module | models |
|---|---|
| `Keywords` | tokenising, first-seen frequency counting, stable descending sort, top-k |
| `Description` | the description template and its truncation |
| `Graphql` | endpoint and token resolution, headers, the request, the response text |
| `Execute` | the accumulate policy and the three prompts of `execute.py` |
| `LocalQuery` | the final-result policy, the local prompt and the `query.py` GraphQL variant |
| `Messages` | the message stream |
| `Json` | JSON values, Python truthiness and an opaque codec |
| `ToolResults` | the tool-result envelope |
| `Strings`, `Sequences`, `Wrappers` | shared helpers |

Each tool and each policy comes with the property the code promises:

- the keyword list is ranked by count, with ties broken by first occurrence,
  it is the top k, it has no duplicates, and it has the exact length Python
  slicing gives;
- the description text always ends in `"..."`, and it keeps within the limit
  whenever the limit is at least 3;
- a non-200 error text can be parsed back into its status and body;
- the accumulated text is the concatenation of the text pieces, and tool
  blocks contribute nothing;
- the final result is the last result the stream offers, and content messages
  never decide it.

The code paths with loops are written as methods with loop invariants and
proved against the specification functions: `CountFrequencies`, `Accumulate`
and `FinalResult`.

External services become parameters:

- the JSON library is a `Codec` of three opaque functions;
- the HTTP transport is a function from request to response;
- an agent session is a function from the submitted prompt to the message
  stream it yields;
- the process environment is a map.

`setup.py` (lines 33-86) and `query.py` (lines 38-85) repeat the keyword and
description tools of `tools.py` line for line. The same members model those
copies, and the table cites whichever copy matches the member's lines best.
The GraphQL tool of `query.py` (lines 18-31) is not a copy. It checks no
endpoint, always sends `Authorization` and passes no timeout, so it is
modelled on its own as `LocalQuery.CallGraphqlEndpointLocal`.

The description prompt promises "(max {max_length} chars)"
(execute.py:60), but the description tool does not always keep within
`max_length`. For a limit below 3, `description[:max_length-3]` counts from
the end of the string, so the result is longer than the limit
(`DescriptionSmallLimitOverrun`). The model follows the code.

The two reply policies are separate functions with different rules. The
accumulate policy (execute.py:34-42) ignores `result`, and the final-result
policy (query.py:127-157) ignores all text. Neither combines the two.

The definitions that render the source, and the lines each one renders:

- `Keywords.Tokens`: `re.findall(r'\b\w+\b', ...)`, tools.py:48-49;
  `Strings.Lower`: `.lower()`, tools.py:48-49.
- `Keywords.Stream`: the content words, then the context words when the
  context is not empty, tools.py:48-51.
- `Keywords.FirstSeen` and `Keywords.Frequencies`: the `word_freq` dict,
  tools.py:52-55.
- `Keywords.SortByFrequency`: the stable `sorted(..., reverse=True)`,
  tools.py:57.
- `Keywords.TopKeywords`: the sort followed by `[:max_keywords]`,
  tools.py:57.
- `Description.Template`: the f-string template, tools.py:76-79.
- `Description.Truncate`: the cut to `max_length`, tools.py:81-82.
- `Graphql.Endpoint` and `Graphql.AuthToken`: the `or` with the environment
  variable, tools.py:15-16.
- `Graphql.ResponseText`: the reply text, tools.py:33-35.
- `Execute.ParseContext`: `json.loads(context_json) if context_json else {}`,
  execute.py:23.
- `Execute.EnhancedPrompt`: the prompt with its context, execute.py:26-29.
- `Execute.KeywordPrompt`: the keyword prompt, execute.py:45.
- `Execute.DescriptionPrompt`: the description prompt, execute.py:60.
- `Execute.MessageText` and `Execute.AccumulatedText`: the accumulating
  loop, execute.py:35-41.
- `LocalQuery.LocalPrompt`: the prompt template, query.py:108-121.
- `LocalQuery.ResultOf`: which messages offer a result, query.py:150-153.
- `LocalQuery.LastResult` and `LocalQuery.FinalText`: the final result and
  its `or "No result generated"` fallback, query.py:150-157.

## Model

| member | source | states |
|---|---|---|
| Graphql.CallGraphqlEndpoint | priv/python/agent/src/meadow_metadata_agent/tools.py:11-35 | no request is sent exactly when the resolved endpoint is falsy, and then the reply is the "endpoint not provided" text; otherwise one POST goes to the resolved endpoint with body {query, variables} (defaults "" and {}), the JSON content type, a bearer header only for a truthy token, and a 30-second timeout, and the reply is the response text of what `post` returned |
| Graphql.EndpointResolution | priv/python/agent/src/meadow_metadata_agent/tools.py:15-16 | a truthy argument overrides the environment variable; the endpoint is missing iff neither the argument nor `GRAPHQL_ENDPOINT` is truthy; a truthy token argument wins |
| Graphql.BuildHeaders | priv/python/agent/src/meadow_metadata_agent/tools.py:18-22 | the headers always carry the JSON content type, and carry `Authorization: Bearer <token>` exactly when the token is truthy |
| Graphql.ResponseTextSpec | priv/python/agent/src/meadow_metadata_agent/tools.py:33-35 | status 200 yields the dumped JSON; any other status yields a text starting "Error: " and ending with the body, from which the status and the body parse back unchanged |
| Strings.IntDecimalRoundTrip | priv/python/agent/src/meadow_metadata_agent/tools.py:35 | the decimal rendering of an int (the f-string's `{response.status_code}`) is a numeral that parses back to the same int |
| Keywords.GenerateKeywords | priv/python/agent/src/meadow_metadata_agent/tools.py:42-64 | the tool returns one text block: the top keywords of content and context (defaults "", "", 10) joined by ", " |
| Keywords.WordRunLengthSpec | priv/python/agent/src/meadow_metadata_agent/tools.py:48 | the run the tokenizer takes is maximal: word characters up to its length and a non-word character (or the end) right after |
| Keywords.TokensAreWords | priv/python/agent/src/meadow_metadata_agent/tools.py:48-49 | every token that `\b\w+\b` finds is a non-empty run of word characters |
| Keywords.TokensAreInfixes | priv/python/agent/src/meadow_metadata_agent/tools.py:48-49 | every token occurs in the text it was found in |
| Keywords.TokensCoverWordChars | priv/python/agent/src/meadow_metadata_agent/tools.py:48-49 | the tokens, concatenated, are exactly the word characters of the text, in order: nothing is lost or invented |
| Keywords.TokensSplitAtSeparator | priv/python/agent/src/meadow_metadata_agent/tools.py:48-49 | a non-word character splits the text: tokens of a+[c]+b are tokens of a followed by tokens of b |
| Keywords.TokensOfWord | priv/python/agent/src/meadow_metadata_agent/tools.py:48-49 | a single run of word characters is one token |
| Keywords.TokensOfLowercase | priv/python/agent/src/meadow_metadata_agent/tools.py:48-49 | tokens of lower-cased text are lower case |
| Keywords.FirstSeenKeys | priv/python/agent/src/meadow_metadata_agent/tools.py:52-55 | the dictionary's keys are exactly the words longer than 3 characters that occur, each once |
| Keywords.FirstSeenOrder | priv/python/setup.py:45-48 | the dictionary's key order is the order of first occurrence in the word stream (both directions) |
| Keywords.FirstSeenSnoc | priv/python/setup.py:46-48 | one more word adds it as a new last key iff it is counted and unseen; otherwise the keys do not change |
| Keywords.FrequenciesSnoc | priv/python/setup.py:46-48 | one more counted word increments its count (from 0 when new); an uncounted word changes nothing |
| Keywords.CountStep | priv/python/query.py:49-51 | one loop iteration appends a counted word to the keys iff it is not yet a key, and sets its entry to `get(word, 0) + 1`; an uncounted word changes nothing |
| Keywords.CountFrequencies | priv/python/query.py:48-51 | the loop builds exactly the first-seen key order and the frequency map of the whole word list |
| Keywords.SortByFrequency | priv/python/query.py:53 | the sort returns a permutation of the keys |
| Keywords.Insert | priv/python/query.py:53 | inserting a key adds exactly that key to the multiset |
| Keywords.ConsRanked | priv/python/setup.py:51 | a key that ranks ahead of every key of a ranked list can lead it, and the list stays ranked |
| Keywords.PrependRanked | priv/python/setup.py:51 | a key counted at least as often as the head of a ranked list, and earlier in dictionary order than all its keys, can lead it and the list stays ranked |
| Keywords.InsertRanked | priv/python/setup.py:51 | inserting a key that precedes every sorted key in dictionary order keeps the list ranked: higher counts first, ties in dictionary order |
| Keywords.SortRanked | priv/python/setup.py:51 | `sorted(..., reverse=True)` on distinct keys is ranked by descending count, and stable on ties |
| Keywords.KeywordsAreCountedWords | priv/python/agent/src/meadow_metadata_agent/tools.py:48-57 | every keyword is longer than 3 characters, made of word characters, lower case, and a token of the lower-cased content or context |
| Keywords.KeywordsDistinctAndBounded | priv/python/agent/src/meadow_metadata_agent/tools.py:52-57 | no keyword repeats; the list has min(k, n) entries for k >= 0 and max(n + k, 0) for negative k, n being the number of distinct counted words |
| Keywords.KeywordsRanked | priv/python/agent/src/meadow_metadata_agent/tools.py:51-57 | any earlier keyword occurs more often than a later one, or equally often and first earlier in the content-then-context stream |
| Keywords.KeywordsAreTopK | priv/python/agent/src/meadow_metadata_agent/tools.py:52-57 | a counted word left out occurs less often than every keyword kept, or equally often and first appears after it: a tie at the cut keeps the word seen first |
| Keywords.KeywordTextRoundTrip | priv/python/agent/src/meadow_metadata_agent/tools.py:62 | splitting the joined text at ", " gives the keyword list back |
| Strings.SplitJoinRoundTrip | priv/python/agent/src/meadow_metadata_agent/tools.py:62 | `", ".join` is undone by splitting, for non-empty comma-free items |
| Description.GenerateDescription | priv/python/agent/src/meadow_metadata_agent/tools.py:71-89 | the tool returns one text block: the description of content and context (defaults "", "", 400), which ends with "..." |
| Description.Describe | priv/python/agent/src/meadow_metadata_agent/tools.py:76-82 | every description ends with "...", truncated or not |
| Description.TemplateShape | priv/python/agent/src/meadow_metadata_agent/tools.py:76-79 | the template starts with "Analysis of content", names a non-empty context, ends with "...", and is at least 24 characters long; without context it is exactly opening + ": " + preview + "..." |
| Description.DescriptionUsesPreview | priv/python/agent/src/meadow_metadata_agent/tools.py:79 | only the first 100 characters of the content can influence the description |
| Description.DescriptionWithinLimit | priv/python/agent/src/meadow_metadata_agent/tools.py:81-82 | a template that fits is returned unchanged; with a limit of at least 3 the result never exceeds it |
| Description.DescriptionTruncatedExactly | priv/python/setup.py:78-79 | a cut template becomes exactly `max_length` long: its first `max_length - 3` characters and "..." |
| Description.DescriptionSmallLimitOverrun | priv/python/query.py:77-78 | with a limit below 3 the result always exceeds the limit, and its length is given exactly |
| Execute.QueryGeneral | priv/python/agent/src/meadow_metadata_agent/execute.py:18-42 | the reply is the accumulated text of the session run on the enhanced prompt; an empty context JSON submits the prompt unchanged |
| Execute.AskForKeywords | priv/python/agent/src/meadow_metadata_agent/execute.py:44-57 | the reply is the accumulated text of the session run on the keyword prompt |
| Execute.AskForDescription | priv/python/agent/src/meadow_metadata_agent/execute.py:59-72 | the reply is the accumulated text of the session run on the description prompt |
| Execute.Accumulate | priv/python/agent/src/meadow_metadata_agent/execute.py:34-41 | the nested loop computes exactly the accumulated text of the message stream |
| Execute.AccumulatedTextAppend | priv/python/agent/src/meadow_metadata_agent/execute.py:34-41 | accumulation starts from "" and is a homomorphism: the text of a concatenated stream is the concatenation of the texts |
| Execute.BlocksTextAppend | priv/python/agent/src/meadow_metadata_agent/execute.py:37-39 | the text of a concatenated block list is the concatenation of the texts |
| Execute.AccumulatedTextStep | priv/python/setup.py:125-131 | one more message appends exactly that message's text |
| Execute.BlocksTextStep | priv/python/setup.py:127-129 | one more block appends exactly that block's text |
| Execute.BlocksTextIsConcat | priv/python/agent/src/meadow_metadata_agent/execute.py:37-39 | a content message's text is the concatenation of its text blocks' texts, in order |
| Execute.AccumulatedTextIsConcat | priv/python/agent/src/meadow_metadata_agent/execute.py:36-41 | the reply is the concatenation, in stream order, of the block texts of content messages and the texts of text messages |
| Execute.ToolBlocksContributeNothing | priv/python/agent/src/meadow_metadata_agent/execute.py:37-39 | removing a tool-use or tool-result block does not change the text |
| Execute.OwnTextIgnored | priv/python/agent/src/meadow_metadata_agent/execute.py:36-41 | a message that has `content` is never read for its own `text`: the `elif` branch is not taken |
| Execute.EnhancedPromptShape | priv/python/agent/src/meadow_metadata_agent/execute.py:23-29 | a falsy context leaves the prompt unchanged; a truthy one makes the prompt a prefix, followed by the context label, with the indented JSON inside and the tool hint at the end |
| Execute.KeywordPromptMentions | priv/python/agent/src/meadow_metadata_agent/execute.py:45 | the keyword prompt contains the decimal count and the content, and ends with the context |
| Execute.DescriptionPromptMentions | priv/python/agent/src/meadow_metadata_agent/execute.py:60 | the description prompt contains the decimal limit and the content, and ends with the context |
| LocalQuery.LastResult | priv/python/query.py:150-154 | a final result, when there is one, is a non-empty string |
| LocalQuery.FinalText | priv/python/query.py:157 | the reply is never the empty string |
| LocalQuery.LastResultIsLast | priv/python/query.py:127-154 | there is no final result iff no message offers one; otherwise it is the one offered by the last message that offers one |
| LocalQuery.FinalTextDependsOnResultsOnly | priv/python/query.py:129-154 | two streams of the same length whose messages offer the same results position by position give the same reply |
| LocalQuery.FinalTextIsLastOffer | priv/python/query.py:127-157 | the reply is the last result offered in the stream, or "No result generated" when none is offered |
| LocalQuery.FinalTextDependsOnOffersOnly | priv/python/query.py:127-157 | streams that offer the same results in the same order give the same reply, whatever their length, text and tool traffic |
| LocalQuery.OffersAppend | priv/python/query.py:129-154 | the results offered by a concatenated stream are those of the first part followed by those of the second |
| LocalQuery.NonResultMessageIgnored | priv/python/query.py:129-154 | a message that offers no result, inserted anywhere in the stream, does not change the reply |
| LocalQuery.ContentNeverDecides | priv/python/query.py:130-150 | changing the blocks or the `result` attribute of a message that has `content` never changes the reply: the `elif` branch is not taken |
| LocalQuery.FinalResult | priv/python/query.py:127-157 | the loop returns exactly the final-result reply of the stream |
| LocalQuery.LocalPromptShape | priv/python/query.py:108-121 | the template quotes the user query; a falsy context appears as "None" and is the same as an empty object, a truthy one appears as its indented JSON after the label |
| LocalQuery.QueryGeneralLocal | priv/python/query.py:104-157 | the reply is the final-result reply of the session run on the local prompt, and is never empty |
| LocalQuery.CallGraphqlEndpointLocal | priv/python/query.py:18-31 | the request goes to the given endpoint with the default body, both headers always (the bearer even for an empty token), and no timeout; the reply is the response text |

## Left out

- The agent SDK session is a function from the prompt to the message stream.
  Its options, MCP server registration, allowed-tool lists and the
  `async with` lifetime are not modelled. The same goes for `initialize.py`
  and the Bedrock/Anthropic configuration in `setup.py`.
- The synchronous wrappers `generate_keywords_sync`,
  `generate_description_sync` and `query_claude_sync`
  (execute.py:74-81, setup.py:164-171) are not modelled. Each is one
  `asyncio.run` of the modelled coroutine with default arguments. The
  module-level `asyncio.run` in query.py:160 is left out too.
- HTTP transport errors are not modelled: exceptions from `requests.post`,
  and `response.json()` raising on a non-JSON 200 body. `post` is a total
  function, and `response.json()` is the response's `json` field.
- `json.loads` raising on malformed context JSON is not modelled. The codec's
  `loads` is total.
- `json.dumps` formatting is not modelled. The codec's `dumps` and
  `dumpsIndented` are opaque.
- Keywords.Tokens: `\w` and `str.lower()` are modelled on ASCII only.
  Python's Unicode word characters and case mapping are not.
- The `print` logging in query.py:100-102 and query.py:130-148 is not
  modelled. It includes the tool-call and tool-result formatting that is
  printed but never returned.
- The startup prints and `globals()` guard of query.py:13 are not modelled.
- The query.py globals `graphql_endpoint`, `graphql_auth_token`, `prompt` and
  `context_json` become parameters.
- A `UserMessage` whose `content` is a string is not modelled. Every message
  with `content` carries a list of blocks.
- Argument values of the wrong Python type are not modelled. `max_keywords`
  and `max_length` are integers, and content and context are strings.
- Graphql.CallGraphqlEndpoint: `sent` is the request the method reports.
  `post` is a pure function and the model keeps no request log, so the
  contract cannot rule out a call to `post` whose answer is discarded.
