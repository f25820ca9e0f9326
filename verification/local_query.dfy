/** `query.py`: the stand-alone query script, whose aggregator keeps only the
    final result, with its own prompt and its own GraphQL tool. */
module LocalQuery {
  import opened Wrappers
  import opened Sequences
  import opened Json
  import opened ToolResults
  import opened Messages
  import opened Graphql
  import Execute

  // ----- the final-result policy -----

  const NoResult: string := "No result generated"

  /** The result a message offers: a non-empty `result` of a message without
      `content`. Messages with `content` are never asked for one. */
  function ResultOf(m: Message): Option<string> {
    match m
    case ResultMessage(Some(result)) => if result != "" then Some(result) else None
    case _ => None
  }

  /** The result of the last message that offers one. */
  function LastResult(messages: seq<Message>): (r: Option<string>)
    ensures r.Some? ==> r.value != ""
  {
    if messages == [] then None
    else
      match ResultOf(messages[|messages| - 1])
      case Some(result) => Some(result)
      case None => LastResult(messages[..|messages| - 1])
  }

  /** What the script returns: the last offered result, else a fixed text. */
  function FinalText(messages: seq<Message>): (r: string)
    ensures r != ""
  {
    match LastResult(messages)
    case Some(result) => result
    case None => NoResult
  }

  /** Message `i` offers a result and no later message does. */
  predicate IsLastResultAt(messages: seq<Message>, i: int) {
    0 <= i < |messages| && ResultOf(messages[i]).Some? &&
    forall j :: i < j < |messages| ==> ResultOf(messages[j]).None?
  }

  /** LastResult picks the last offered result, and is None exactly when no
      message offers one. */
  lemma {:induction false} LastResultIsLast(messages: seq<Message>)
    ensures LastResult(messages).None? <==> forall i :: 0 <= i < |messages| ==> ResultOf(messages[i]).None?
    ensures forall i :: IsLastResultAt(messages, i) ==> LastResult(messages) == ResultOf(messages[i])
  {
    if messages != [] {
      var n := |messages| - 1;
      var init := messages[..n];
      LastResultIsLast(init);
      assert forall i :: 0 <= i < n ==> init[i] == messages[i];
      if ResultOf(messages[n]).None? {
        assert LastResult(messages) == LastResult(init);
        forall i | IsLastResultAt(messages, i) ensures LastResult(messages) == ResultOf(messages[i]) {
          assert IsLastResultAt(init, i);
        }
      } else {
        assert LastResult(messages) == ResultOf(messages[n]);
        forall i | IsLastResultAt(messages, i) ensures i == n {
        }
      }
    }
  }

  /** Only the offered results decide the answer: streams that offer the same
      results at the same places give the same answer. */
  lemma {:induction false} FinalTextDependsOnResultsOnly(s1: seq<Message>, s2: seq<Message>)
    requires |s1| == |s2| && forall i :: 0 <= i < |s1| ==> ResultOf(s1[i]) == ResultOf(s2[i])
    ensures FinalText(s1) == FinalText(s2)
    ensures LastResult(s1) == LastResult(s2)
  {
    if s1 != [] {
      var n := |s1| - 1;
      FinalTextDependsOnResultsOnly(s1[..n], s2[..n]);
      assert ResultOf(s1[n]) == ResultOf(s2[n]);
    }
  }

  /** The results the stream offers, in stream order. */
  function Offers(messages: seq<Message>): seq<string> {
    if messages == [] then []
    else
      Offers(messages[..|messages| - 1]) +
      match ResultOf(messages[|messages| - 1])
      case Some(result) => [result]
      case None => []
  }

  /** The reply is the last offered result, or the fixed text when nothing is
      offered: text messages and tool traffic, wherever they are inserted or
      removed, never matter. */
  lemma {:induction false} FinalTextIsLastOffer(messages: seq<Message>)
    ensures var offers := Offers(messages);
            FinalText(messages) == if offers == [] then NoResult else offers[|offers| - 1]
  {
    if messages != [] {
      var n := |messages| - 1;
      FinalTextIsLastOffer(messages[..n]);
      match ResultOf(messages[n])
      case Some(result) =>
        assert Offers(messages) == Offers(messages[..n]) + [result];
      case None =>
        assert Offers(messages) == Offers(messages[..n]);
        assert LastResult(messages) == LastResult(messages[..n]);
    }
  }

  /** Streams that offer the same results, in the same order, get the same reply. */
  lemma FinalTextDependsOnOffersOnly(s1: seq<Message>, s2: seq<Message>)
    requires Offers(s1) == Offers(s2)
    ensures FinalText(s1) == FinalText(s2)
  {
    FinalTextIsLastOffer(s1);
    FinalTextIsLastOffer(s2);
  }

  lemma {:induction false} OffersAppend(a: seq<Message>, b: seq<Message>)
    ensures Offers(a + b) == Offers(a) + Offers(b)
  {
    if b != [] {
      var n := |b| - 1;
      assert (a + b)[..|a + b| - 1] == a + b[..n];
      OffersAppend(a, b[..n]);
    } else {
      assert a + b == a;
    }
  }

  /** A message that offers no result (text, tool traffic, an empty result)
      can be inserted anywhere without changing the reply. */
  lemma NonResultMessageIgnored(a: seq<Message>, m: Message, b: seq<Message>)
    requires ResultOf(m).None?
    ensures FinalText(a + [m] + b) == FinalText(a + b)
  {
    OffersAppend(a + [m], b);
    OffersAppend(a, [m]);
    OffersAppend(a, b);
    assert Offers([m]) == [] by {
      assert [m][..0] == [];
    }
    FinalTextDependsOnOffersOnly(a + [m] + b, a + b);
  }

  /** Blocks are only logged, and a message with `content` is never inspected
      for a result: replacing its blocks or its own `result` changes nothing. */
  lemma ContentNeverDecides(messages: seq<Message>, i: nat, blocks: seq<Block>, ownResult: Option<string>)
    requires i < |messages| && messages[i].ContentMessage?
    ensures FinalText(messages[i := messages[i].(content := blocks, ownResult := ownResult)]) == FinalText(messages)
  {
    var changed := messages[i := messages[i].(content := blocks, ownResult := ownResult)];
    FinalTextDependsOnResultsOnly(changed, messages);
  }

  /** The aggregator loop of `query_claude_general_local`. */
  method FinalResult(messages: seq<Message>) returns (r: string)
    ensures r == FinalText(messages)
  {
    var finalResult := "";
    for i := 0 to |messages|
      invariant finalResult == match LastResult(messages[..i]) case Some(result) => result case None => ""
    {
      var message := messages[i];
      assert messages[..i + 1][..i] == messages[..i];
      match message {
        case ContentMessage(_, _, _) =>
        case ResultMessage(result) =>
          if result.Some? && result.value != "" {
            finalResult := result.value;
          }
        case _ =>
      }
    }
    assert messages[..|messages|] == messages;
    r := if finalResult != "" then finalResult else NoResult;
  }

  // ----- the prompt -----

  const PromptHead: string :=
    "You have access to these tools:\n    - generate_keywords: Generate relevant keywords from content\n    - generate_description: Generate a description from content\n\n    User query: "
  const ContextLabel: string := "\n\n    Context data: "
  const PromptTail: string :=
    "\n\n    Please use the appropriate tools to help answer this query. For example:\n    - If asked to extract keywords, use the generate_keywords tool\n    - If asked to create descriptions, use the generate_description tool\n    - Use tools even if you could answer without them, as they provide structured analysis\n\n    Respond with both tool results and your analysis."

  /** The prompt template of `query_claude_general_local`. */
  function LocalPrompt(prompt: string, contextData: JsonValue, dumpsIndented: JsonValue -> string): string {
    PromptHead + prompt + ContextLabel
    + (if Truthy(contextData) then dumpsIndented(contextData) else "None")
    + PromptTail
  }

  /** The template quotes the user prompt verbatim; an empty context is written
      as `None` and leaves no other trace, a non-empty one as its JSON. */
  lemma LocalPromptShape(prompt: string, contextData: JsonValue, dumpsIndented: JsonValue -> string)
    ensures var r := LocalPrompt(prompt, contextData, dumpsIndented);
            IsInfix(prompt, r) &&
            (!Truthy(contextData) ==> IsInfix(ContextLabel + "None", r) &&
                                      r == LocalPrompt(prompt, JObject([]), dumpsIndented)) &&
            (Truthy(contextData) ==> IsInfix(ContextLabel + dumpsIndented(contextData), r))
  {
    var shown := if Truthy(contextData) then dumpsIndented(contextData) else "None";
    InfixOfFive(PromptHead, prompt, ContextLabel, shown, PromptTail);
  }

  // ----- the facade -----

  /** `query_claude_general_local`: one session, one prompt, the final result;
      never the empty string. */
  method QueryGeneralLocal(prompt: string, contextJson: string, codec: Codec, runtime: Runtime) returns (r: string)
    ensures r == FinalText(runtime(LocalPrompt(prompt, Execute.ParseContext(contextJson, codec.loads), codec.dumpsIndented)))
    ensures r != ""
  {
    var contextData := Execute.ParseContext(contextJson, codec.loads);
    r := FinalResult(runtime(LocalPrompt(prompt, contextData, codec.dumpsIndented)));
  }

  // ----- the script's own GraphQL tool -----

  /** The `call_graphql_endpoint_tool` of `query.py`. `endpoint` and `authToken`
      are the script's globals. It checks no endpoint, always sends
      Authorization, passes no timeout, and reports the response as the main
      tool does. */
  method CallGraphqlEndpointLocal(args: GraphqlArgs, endpoint: string, authToken: string,
                                  post: Request -> HttpResponse, dumps: JsonValue -> string)
    returns (result: ToolResult, sent: Request)
    ensures sent.url == endpoint
    ensures sent.body == RequestBody(args.query.GetOr(""), args.variables.GetOr(JObject([])))
    ensures sent.headers == map["Content-Type" := JsonContentType, "Authorization" := "Bearer " + authToken]
    ensures sent.timeout.None?
    ensures IsSingleText(result, ResponseText(post(sent), dumps))
  {
    var query := args.query.GetOr("");
    var variables := args.variables.GetOr(JObject([]));
    var headers := map["Content-Type" := JsonContentType, "Authorization" := "Bearer " + authToken];
    sent := Request(endpoint, RequestBody(query, variables), headers, None);
    var response := post(sent);
    result := TextResult(ResponseText(response, dumps));
  }
}
