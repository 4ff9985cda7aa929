/** The request-handling core of the server: configuration defaulting and the
    bodies of the list-tools and call-tool handlers. The environment is a
    map from variable names to values; the clock is the `now` parameter (each
    path through the call handler reads it at most once); logging does
    nothing. A content block holds the structured value the handler
    serializes, not its pretty-printed text. */
module Server {
  import opened Wrappers
  import opened Json
  import opened PingPongTools

  datatype ServerConfig = ServerConfig(serverName: string, logLevel: string, nodeEnv: string)

  const DEFAULT_SERVER_NAME: string := "ping-pong-server"
  const DEFAULT_LOG_LEVEL: string := "info"
  const DEFAULT_NODE_ENV: string := "development"

  /** Is the variable set to a non-empty value (the truthiness `||` tests)? */
  predicate IsSet(env: map<string, string>, key: string) {
    key in env && env[key] != ""
  }

  /** `env[key] || fallback`. */
  function EnvOr(env: map<string, string>, key: string, fallback: string): string {
    if key in env && env[key] != "" then env[key] else fallback
  }

  /** Each field is its variable when that is set and non-empty, and its
      default otherwise. */
  function LoadConfig(env: map<string, string>): (c: ServerConfig)
    ensures c.serverName == (if IsSet(env, "MCP_SERVER_NAME") then env["MCP_SERVER_NAME"] else DEFAULT_SERVER_NAME)
    ensures c.logLevel == (if IsSet(env, "LOG_LEVEL") then env["LOG_LEVEL"] else DEFAULT_LOG_LEVEL)
    ensures c.nodeEnv == (if IsSet(env, "NODE_ENV") then env["NODE_ENV"] else DEFAULT_NODE_ENV)
  {
    ServerConfig(
      EnvOr(env, "MCP_SERVER_NAME", DEFAULT_SERVER_NAME),
      EnvOr(env, "LOG_LEVEL", DEFAULT_LOG_LEVEL),
      EnvOr(env, "NODE_ENV", DEFAULT_NODE_ENV))
  }

  /** No configuration field is ever empty. */
  lemma LoadConfigNeverEmpty(env: map<string, string>)
    ensures LoadConfig(env).serverName != ""
    ensures LoadConfig(env).logLevel != ""
    ensures LoadConfig(env).nodeEnv != ""
  {
  }

  /** The configuration depends on the three variables only: environments
      that agree on them give the same configuration, and one where none of
      them is set gives the defaults. */
  lemma LoadConfigReadsThreeVariables(env1: map<string, string>, env2: map<string, string>)
    requires forall k :: k in {"MCP_SERVER_NAME", "LOG_LEVEL", "NODE_ENV"} ==>
               (k in env1 <==> k in env2) && (k in env1 ==> env1[k] == env2[k])
    ensures LoadConfig(env1) == LoadConfig(env2)
    ensures (forall k :: k in {"MCP_SERVER_NAME", "LOG_LEVEL", "NODE_ENV"} ==> !IsSet(env1, k))
            ==> LoadConfig(env1) == ServerConfig(DEFAULT_SERVER_NAME, DEFAULT_LOG_LEVEL, DEFAULT_NODE_ENV)
  {
    assert "MCP_SERVER_NAME" in {"MCP_SERVER_NAME", "LOG_LEVEL", "NODE_ENV"};
    assert "LOG_LEVEL" in {"MCP_SERVER_NAME", "LOG_LEVEL", "NODE_ENV"};
    assert "NODE_ENV" in {"MCP_SERVER_NAME", "LOG_LEVEL", "NODE_ENV"};
  }

  datatype ListToolsResult = ListToolsResult(tools: seq<Tool>)

  /** The list handler: exactly the ping-pong tool's definition. */
  function ListTools(): (r: ListToolsResult)
    ensures |r.tools| == 1
    ensures r.tools[0] == GetDefinition()
    ensures r.tools[0].name == TOOL_NAME
  {
    ListToolsResult([GetDefinition()])
  }

  datatype CallToolRequest = CallToolRequest(name: string, arguments: Json)

  /** What a text block serializes: the tool's result, or `{error, timestamp}`. */
  datatype Payload =
    | ToolOutput(result: PingPongResponse)
    | ErrorReport(error: string, timestamp: string)

  /** A content block of type 'text'. */
  datatype Content = TextContent(text: Payload)

  datatype CallToolResult = CallToolResult(content: seq<Content>, isError: bool)

  /** A value thrown inside the handler: an `Error` instance, or any other
      value (a `ToolError` is a plain object, not an `Error`). */
  datatype Thrown = ErrorInstance(message: string) | OtherValue(error: ToolError)

  /** The message the handler reports for a caught value. */
  function ErrorMessage(e: Thrown): (m: string)
    ensures e.ErrorInstance? ==> m == e.message
    ensures e.OtherValue? ==> m == "Unknown error occurred"
  {
    match e
    case ErrorInstance(message) => message
    case OtherValue(_) => "Unknown error occurred"
  }

  /** The call handler. The exact name `ping_pong` runs the tool; a result is
      returned as one text block, a thrown `ToolError` is caught and reported
      as an error envelope. Any other name gets an error envelope naming it. */
  function CallTool(request: CallToolRequest, now: string): (r: CallToolResult)
    ensures |r.content| == 1
    ensures r.isError <==> request.name != TOOL_NAME || Execute(request.arguments, now).Failure?
    ensures request.name != TOOL_NAME ==>
              r.content[0].text == ErrorReport("Unknown tool: " + request.name, now)
    ensures request.name == TOOL_NAME && Execute(request.arguments, now).Success? ==>
              r.content[0].text == ToolOutput(Execute(request.arguments, now).value)
    ensures request.name == TOOL_NAME && Execute(request.arguments, now).Failure? ==>
              r.content[0].text == ErrorReport("Unknown error occurred", now)
  {
    if request.name == TOOL_NAME then
      match Execute(request.arguments, now)
      case Success(result) =>
        CallToolResult([TextContent(ToolOutput(result))], false)
      case Failure(error) =>
        CallToolResult([TextContent(ErrorReport(ErrorMessage(OtherValue(error)), now))], true)
    else
      CallToolResult([TextContent(ErrorReport("Unknown tool: " + request.name, now))], true)
  }

  /** The names the list handler advertises are exactly the names the call
      handler dispatches: any other name, including a different spelling of
      `ping_pong`, is reported as an unknown tool. */
  lemma ListedNamesAreDispatched(request: CallToolRequest, now: string)
    ensures (exists t :: t in ListTools().tools && t.name == request.name)
            <==> !(CallTool(request, now).content[0].text.ErrorReport?
                   && CallTool(request, now).content[0].text.error == "Unknown tool: " + request.name)
  {
    if request.name == TOOL_NAME {
      assert ListTools().tools[0] in ListTools().tools;
    }
  }

  /** Every failure of the tool reaches the caller as the same error text: the
      guard's code and message are not reported. */
  lemma FailedCallsLoseTheCause(request: CallToolRequest, now: string)
    requires request.name == TOOL_NAME
    requires ValidateArguments(request.arguments).Failure?
    ensures CallTool(request, now)
            == CallToolResult([TextContent(ErrorReport("Unknown error occurred", now))], true)
  {
  }

  /** A successful call returns the tool's reply stamped with the call's time,
      and no error flag. */
  lemma SuccessfulCallCarriesReply(request: CallToolRequest, now: string)
    requires request.name == TOOL_NAME
    requires ValidateArguments(request.arguments).Success?
    ensures !CallTool(request, now).isError
    ensures CallTool(request, now).content[0].text
            == ToolOutput(PingPongResponse(ProcessMessage(ValidateArguments(request.arguments).value.message), now))
  {
  }

  /** Worked example: a blank message reaches the caller as an error envelope
      saying 'Unknown error occurred'. */
  lemma CallToolBlankExample(args: Json, now: string)
    requires args == Obj(map["message" := Str("")])
    ensures CallTool(CallToolRequest(TOOL_NAME, args), now)
            == CallToolResult([TextContent(ErrorReport("Unknown error occurred", now))], true)
  {
    ExecuteBlankEmptyString(args, now);
  }

  lemma ExecuteBlankEmptyString(args: Json, now: string)
    requires args == Obj(map["message" := Str("")])
    ensures Execute(args, now).Failure?
  {
    assert args.fields["message"].s == "";
    ValidateArgumentsClassifies(args);
  }
}
