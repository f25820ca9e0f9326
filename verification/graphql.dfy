/** `call_graphql_endpoint_tool`: POST a GraphQL query and report the answer as
    one text block. The HTTP transport and `json.dumps` are parameters. */
module Graphql {
  import opened Wrappers
  import opened Sequences
  import opened Strings
  import opened Json
  import opened ToolResults

  /** The tool's arguments; a missing key is None. */
  datatype GraphqlArgs = GraphqlArgs(
    query: Option<string>,
    variables: Option<JsonValue>,
    endpoint: Option<string>,
    authToken: Option<string>)

  /** The process environment as `os.getenv` sees it. */
  type Env = map<string, string>

  function GetEnv(env: Env, name: string): Option<string> {
    if name in env then Some(env[name]) else None
  }

  /** Python truthiness of an optional string: present and not empty. */
  predicate IsTruthy(v: Option<string>) {
    v.Some? && v.value != ""
  }

  /** Python's `a or b`. */
  function OrElse(a: Option<string>, b: Option<string>): Option<string> {
    if IsTruthy(a) then a else b
  }

  /** The endpoint the tool uses: the argument when truthy, else `GRAPHQL_ENDPOINT`. */
  function Endpoint(args: GraphqlArgs, env: Env): Option<string> {
    OrElse(args.endpoint, GetEnv(env, "GRAPHQL_ENDPOINT"))
  }

  /** The token the tool uses: the argument when truthy, else `GRAPHQL_AUTH_TOKEN`. */
  function AuthToken(args: GraphqlArgs, env: Env): Option<string> {
    OrElse(args.authToken, GetEnv(env, "GRAPHQL_AUTH_TOKEN"))
  }

  /** The JSON body `{"query": ..., "variables": ...}`. */
  datatype RequestBody = RequestBody(query: string, variables: JsonValue)

  /** A POST as the tool issues it; `timeout` is None when none is passed. */
  datatype Request = Request(url: string, body: RequestBody, headers: map<string, string>, timeout: Option<int>)

  /** What the transport hands back: the status, the body text, and the body parsed as JSON. */
  datatype HttpResponse = HttpResponse(status: int, text: string, json: JsonValue)

  const EndpointMissing: string := "Error: GraphQL endpoint not provided"
  const RequestTimeout: int := 30
  const JsonContentType: string := "application/json"

  /** Content-Type is always sent; Authorization exactly when the token is truthy. */
  predicate IsRequestHeaders(headers: map<string, string>, token: Option<string>) {
    "Content-Type" in headers && headers["Content-Type"] == JsonContentType &&
    ("Authorization" in headers <==> IsTruthy(token)) &&
    (IsTruthy(token) ==> headers["Authorization"] == "Bearer " + token.value) &&
    forall k :: k in headers ==> k == "Content-Type" || k == "Authorization"
  }

  /** The `headers` dictionary the tool builds and then extends. */
  method BuildHeaders(token: Option<string>) returns (headers: map<string, string>)
    ensures IsRequestHeaders(headers, token)
  {
    headers := map["Content-Type" := JsonContentType];
    if IsTruthy(token) {
      headers := headers["Authorization" := "Bearer " + token.value];
    }
  }

  /** The text reported for a response: the re-encoded JSON body on status 200,
      otherwise `"Error: <status> - <body>"`. */
  function ResponseText(response: HttpResponse, dumps: JsonValue -> string): string {
    if response.status == 200 then dumps(response.json)
    else "Error: " + IntToDecimal(response.status) + " - " + response.text
  }

  /** Reads the status and the body back out of an error text. */
  function ParseErrorText(s: string): Option<(int, string)> {
    if !IsPrefix("Error: ", s) then None
    else
      var rest := s[7..];
      var n := NumeralLength(rest);
      if IsNumeral(rest[..n]) && IsPrefix(" - ", rest[n..]) then Some((DecimalToInt(rest[..n]), rest[n + 3..]))
      else None
  }

  /** Status 200 yields the dumped JSON; any other status yields an error text
      from which the status and the body can be read back unchanged. */
  lemma ResponseTextSpec(response: HttpResponse, dumps: JsonValue -> string)
    ensures response.status == 200 ==> ResponseText(response, dumps) == dumps(response.json)
    ensures response.status != 200 ==>
      IsPrefix("Error: ", ResponseText(response, dumps)) &&
      EndsWith(ResponseText(response, dumps), response.text) &&
      ParseErrorText(ResponseText(response, dumps)) == Some((response.status, response.text))
  {
    if response.status != 200 {
      var digits := IntToDecimal(response.status);
      var s := ResponseText(response, dumps);
      var rest := digits + " - " + response.text;
      assert s == "Error: " + rest;
      assert s[7..] == rest;
      NumeralLengthIs(rest, |digits|);
      assert rest[..|digits|] == digits;
      assert rest[|digits|..] == " - " + response.text;
      IntDecimalRoundTrip(response.status);
    }
  }

  /** A truthy argument overrides the environment; the endpoint is missing
      exactly when neither the argument nor the environment gives a truthy one. */
  lemma EndpointResolution(args: GraphqlArgs, env: Env)
    ensures IsTruthy(args.endpoint) ==> Endpoint(args, env) == args.endpoint
    ensures !IsTruthy(args.endpoint) ==> Endpoint(args, env) == GetEnv(env, "GRAPHQL_ENDPOINT")
    ensures !IsTruthy(Endpoint(args, env)) <==>
      !IsTruthy(args.endpoint) && !IsTruthy(GetEnv(env, "GRAPHQL_ENDPOINT"))
    ensures IsTruthy(args.authToken) ==> AuthToken(args, env) == args.authToken
  {
  }

  /** `call_graphql_endpoint_tool`. `sent` is the request handed to `post`,
      None when none is issued. */
  method CallGraphqlEndpoint(args: GraphqlArgs, env: Env, post: Request -> HttpResponse, dumps: JsonValue -> string)
    returns (result: ToolResult, sent: Option<Request>)
    ensures sent.None? <==> !IsTruthy(Endpoint(args, env))
    ensures sent.None? ==> IsSingleText(result, EndpointMissing)
    ensures sent.Some? ==>
      sent.value.url == Endpoint(args, env).value &&
      sent.value.body == RequestBody(args.query.GetOr(""), args.variables.GetOr(JObject([]))) &&
      IsRequestHeaders(sent.value.headers, AuthToken(args, env)) &&
      sent.value.timeout == Some(RequestTimeout) &&
      IsSingleText(result, ResponseText(post(sent.value), dumps))
  {
    var query := args.query.GetOr("");
    var variables := args.variables.GetOr(JObject([]));
    var endpoint := OrElse(args.endpoint, GetEnv(env, "GRAPHQL_ENDPOINT"));
    var token := OrElse(args.authToken, GetEnv(env, "GRAPHQL_AUTH_TOKEN"));
    var headers := BuildHeaders(token);
    if !IsTruthy(endpoint) {
      return TextResult(EndpointMissing), None;
    }
    var request := Request(endpoint.value, RequestBody(query, variables), headers, Some(RequestTimeout));
    var response := post(request);
    result := TextResult(ResponseText(response, dumps));
    sent := Some(request);
  }
}
