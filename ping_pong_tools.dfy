/** The `ping_pong` tool: its advertised definition, the guard chain that
    classifies untyped arguments, the reply rule, and `execute`, which
    composes them and re-wraps every failure. A thrown `ToolError` is a
    `Failure` result; the clock is the `timestamp` parameter. */
module PingPongTools {
  import opened Wrappers
  import opened Json
  import opened JsText

  /** One property of a JSON-schema object description. */
  datatype PropertySchema = PropertySchema(typeName: string, description: string)

  /** The JSON-schema description of a tool's arguments. */
  datatype InputSchema = InputSchema(
    typeName: string,
    properties: map<string, PropertySchema>,
    required: seq<string>)

  /** A tool definition as the list handler advertises it. */
  datatype Tool = Tool(name: string, description: string, inputSchema: InputSchema)

  datatype PingPongRequest = PingPongRequest(message: string)

  datatype PingPongResponse = PingPongResponse(response: string, timestamp: string)

  /** A structured error; `details` is the error it wraps, when there is one. */
  datatype ToolError = ToolError(code: string, message: string, details: Option<ToolError>)

  const TOOL_NAME: string := "ping_pong"

  const INVALID_ARGS: string := "INVALID_ARGS"
  const INVALID_MESSAGE: string := "INVALID_MESSAGE"
  const EMPTY_MESSAGE: string := "EMPTY_MESSAGE"
  const EXECUTION_ERROR: string := "EXECUTION_ERROR"

  /** The codes the argument guard can raise. */
  predicate IsValidationCode(code: string) {
    code == INVALID_ARGS || code == INVALID_MESSAGE || code == EMPTY_MESSAGE
  }

  /** The reply to any message other than "ping": the message is quoted as received. */
  function Refusal(message: string): string {
    "I received \"" + message + "\", but I only respond with \"pong\" when you send \"ping\""
  }

  /** Does a JSON value have the JSON-schema primitive type `typeName`? */
  predicate HasSchemaType(v: Json, typeName: string) {
    match typeName
    case "string" => v.Str?
    case "boolean" => v.Bool?
    case "number" => v.Num?
    case "array" => v.Arr?
    case "object" => v.Obj?
    case "null" => v.Null?
    case _ => false
  }

  /** Does `args` satisfy an object schema: an object holding every required
      property and giving each described property its declared type? */
  predicate Conforms(schema: InputSchema, args: Json) {
    && schema.typeName == "object"
    && args.Obj?
    && (forall k :: k in schema.required ==> k in args.fields)
    && (forall k :: k in schema.properties && k in args.fields ==>
          HasSchemaType(args.fields[k], schema.properties[k].typeName))
  }

  /** The fixed definition of the tool: named `ping_pong`, taking an object
      with exactly one described property, `message`, of type string, which is
      required. */
  function GetDefinition(): (t: Tool)
    ensures t.name == TOOL_NAME
    ensures t.inputSchema.typeName == "object"
    ensures t.inputSchema.properties.Keys == {"message"}
    ensures t.inputSchema.properties["message"].typeName == "string"
    ensures t.inputSchema.required == ["message"]
  {
    Tool(
      TOOL_NAME,
      "Responds with \"pong\" when you send \"ping\"",
      InputSchema(
        "object",
        map["message" := PropertySchema(
          "string",
          "The message to send (should be \"ping\" to get \"pong\" response)")],
        ["message"]))
  }

  function CreateToolError(code: string, message: string, details: Option<ToolError>): (e: ToolError)
    ensures e.code == code && e.message == message && e.details == details
  {
    ToolError(code, message, details)
  }

  /** The argument guard. Checks run in order: a falsy or non-object value is
      INVALID_ARGS; a `message` property that is not a string is
      INVALID_MESSAGE; a message that trims to nothing is EMPTY_MESSAGE.
      Otherwise the trimmed message is returned. */
  function ValidateArguments(args: Json): (r: Result<PingPongRequest, ToolError>)
    ensures r.Success? ==> args.Obj? && "message" in args.fields && args.fields["message"].Str?
    ensures r.Success? ==> r.value.message == Trim(args.fields["message"].s)
    ensures r.Success? ==> r.value.message != [] && Unpadded(r.value.message)
    ensures r.Failure? ==> IsValidationCode(r.error.code) && r.error.details == None
  {
    if !Truthy(args) || TypeOf(args) != "object" then
      Failure(CreateToolError(INVALID_ARGS, "Arguments must be an object", None))
    else
      var message := Property(args, "message");
      if TypeOf(message) != "string" then
        Failure(CreateToolError(INVALID_MESSAGE, "Message must be a string", None))
      else if |Trim(message.s)| == 0 then
        Failure(CreateToolError(EMPTY_MESSAGE, "Message cannot be empty", None))
      else
        Success(PingPongRequest(Trim(message.s)))
  }

  /** The reply rule: "pong" exactly when the message, trimmed and case-folded,
      is "ping"; otherwise the refusal that quotes the message unchanged. */
  function ProcessMessage(message: string): (r: string)
    ensures r == "pong" <==> ToLower(Trim(message)) == "ping"
    ensures r != "pong" ==> r == Refusal(message)
  {
    TrimToLowerCommute(message);
    var normalizedMessage := Trim(ToLower(message));
    if normalizedMessage == "ping" then "pong" else Refusal(message)
  }

  /** `execute`: validate, then reply, stamping the result with `timestamp`.
      Every failure is re-thrown as EXECUTION_ERROR carrying the guard's error
      in `details`. */
  function Execute(args: Json, timestamp: string): (r: Result<PingPongResponse, ToolError>)
    ensures r.Success? <==> ValidateArguments(args).Success?
    ensures r.Success? ==> r.value.timestamp == timestamp
    ensures r.Success? ==> r.value.response == ProcessMessage(ValidateArguments(args).value.message)
    ensures r.Failure? ==> r.error == ToolError(EXECUTION_ERROR, "Failed to execute ping_pong tool",
                                                Some(ValidateArguments(args).error))
  {
    match ValidateArguments(args)
    case Failure(error) =>
      Failure(CreateToolError(EXECUTION_ERROR, "Failed to execute ping_pong tool", Some(error)))
    case Success(validatedArgs) =>
      var response := ProcessMessage(validatedArgs.message);
      Success(PingPongResponse(response, timestamp))
  }

  /** Does `args` hold a string `message` property? */
  predicate HasStringMessage(args: Json) {
    args.Obj? && "message" in args.fields && args.fields["message"].Str?
  }

  /** The guard's outcome, stated on the shape of the value instead of on
      JavaScript truthiness and `typeof`: only arrays and objects pass the
      first check (null, though `typeof null` is "object", does not); arrays
      and objects without a string `message` stop at the second; a message of
      whitespace only stops at the third. */
  lemma ValidateArgumentsClassifies(args: Json)
    ensures ValidateArguments(args) ==
      if !(args.Arr? || args.Obj?) then
        Failure(ToolError(INVALID_ARGS, "Arguments must be an object", None))
      else if !HasStringMessage(args) then
        Failure(ToolError(INVALID_MESSAGE, "Message must be a string", None))
      else if AllWhitespace(args.fields["message"].s) then
        Failure(ToolError(EMPTY_MESSAGE, "Message cannot be empty", None))
      else
        Success(PingPongRequest(Trim(args.fields["message"].s)))
  {
    if HasStringMessage(args) {
      TrimEmptyIffBlank(args.fields["message"].s);
    }
  }

  /** A string trims to nothing exactly when it is all whitespace. */
  lemma TrimEmptyIffBlank(s: string)
    ensures Trim(s) == [] <==> AllWhitespace(s)
  {
    if AllWhitespace(s) {
      assert s + [] + [] == s;
      TrimUnique(s, [], []);
    } else {
      TrimSplits(s);
      SplitAt(s, TrimOffset(s), TrimOffset(s) + |Trim(s)|);
    }
  }

  /** The advertised schema admits exactly the objects with a string
      `message` property. */
  lemma DefinitionSchemaAdmits(args: Json)
    ensures Conforms(GetDefinition().inputSchema, args) <==> HasStringMessage(args)
  {
    var schema := GetDefinition().inputSchema;
    assert "message" in schema.required;
    if HasStringMessage(args) {
      forall k | k in schema.properties && k in args.fields
        ensures HasSchemaType(args.fields[k], schema.properties[k].typeName)
      {
        assert k == "message";
      }
    }
  }

  /** Arguments the guard accepts conform to the advertised input schema, and
      arguments that conform to it fail the guard only by a blank message. */
  lemma DefinitionMatchesValidation(args: Json)
    ensures ValidateArguments(args).Success? ==> Conforms(GetDefinition().inputSchema, args)
    ensures Conforms(GetDefinition().inputSchema, args) && ValidateArguments(args).Failure?
            ==> ValidateArguments(args).error.code == EMPTY_MESSAGE
  {
    DefinitionSchemaAdmits(args);
    ValidateArgumentsClassifies(args);
  }

  /** `execute` never lets a guard code escape: every failure is EXECUTION_ERROR
      with the fixed message, and the guard's code survives only in `details`. */
  lemma ExecuteHidesValidationCodes(args: Json, timestamp: string)
    ensures Execute(args, timestamp).Failure? ==>
              && Execute(args, timestamp).error.code == EXECUTION_ERROR
              && !IsValidationCode(Execute(args, timestamp).error.code)
              && Execute(args, timestamp).error.message == "Failed to execute ping_pong tool"
              && Execute(args, timestamp).error.details.Some?
              && IsValidationCode(Execute(args, timestamp).error.details.value.code)
  {
  }

  /** The reply text depends on the message alone: two calls with the same
      arguments agree on it whatever the clock says. */
  lemma ExecuteResponseIgnoresClock(args: Json, t1: string, t2: string)
    ensures Execute(args, t1).Success? == Execute(args, t2).Success?
    ensures Execute(args, t1).Success? ==> Execute(args, t1).value.response == Execute(args, t2).value.response
  {
  }

  /** "pong" is the reply exactly for an object whose string `message` is
      "ping" up to surrounding whitespace and ASCII case. */
  lemma ExecutePongIff(args: Json, timestamp: string)
    ensures (Execute(args, timestamp).Success? && Execute(args, timestamp).value.response == "pong")
            <==> (HasStringMessage(args) && ToLower(Trim(args.fields["message"].s)) == "ping")
  {
    ValidateArgumentsClassifies(args);
    if HasStringMessage(args) {
      var s := args.fields["message"].s;
      TrimEmptyIffBlank(s);
      if !AllWhitespace(s) {
        assert Execute(args, timestamp).value.response == ProcessMessage(Trim(s));
        TrimIdempotent(s);
      }
    }
  }

  /** Any other accepted message is quoted back trimmed but not case-folded. */
  lemma ExecuteRefusalQuotesTrimmedMessage(args: Json, timestamp: string)
    requires HasStringMessage(args) && !AllWhitespace(args.fields["message"].s)
    requires ToLower(Trim(args.fields["message"].s)) != "ping"
    ensures Execute(args, timestamp)
            == Success(PingPongResponse(Refusal(Trim(args.fields["message"].s)), timestamp))
  {
    ValidateArgumentsClassifies(args);
    TrimIdempotent(args.fields["message"].s);
  }

  /** An object whose string `message` is already trimmed and non-empty is
      answered according to that message as it stands. */
  lemma ExecuteTrimmedMessage(args: Json, t: string)
    requires HasStringMessage(args)
    requires args.fields["message"].s != [] && Unpadded(args.fields["message"].s)
    ensures Execute(args, t) == Success(PingPongResponse(ProcessMessage(args.fields["message"].s), t))
  {
    var m := args.fields["message"].s;
    assert ValidateArguments(args) == Success(PingPongRequest(m)) by {
      TrimUnpadded(m);
      ValidateArgumentsClassifies(args);
      assert !IsWhitespace(m[0]);
    }
  }

  /** For a message that is already trimmed, the reply depends on its case
      folding alone. */
  lemma ProcessTrimmedMessage(m: string)
    requires Unpadded(m)
    ensures ToLower(m) == "ping" ==> ProcessMessage(m) == "pong"
    ensures ToLower(m) != "ping" ==> ProcessMessage(m) == Refusal(m)
  {
    TrimUnpadded(m);
  }

  lemma PingFolds(m: string)
    requires m == "Ping"
    ensures m != [] && Unpadded(m) && ToLower(m) == "ping"
  {
    assert !IsWhitespace(m[0]) && !IsWhitespace(m[3]);
    var folded := ToLower(m);
    assert folded[0] == 'p' && folded[1] == 'i' && folded[2] == 'n' && folded[3] == 'g';
  }

  lemma HelloDoesNotFold(m: string)
    requires m == "hello"
    ensures m != [] && Unpadded(m) && ToLower(m) != "ping"
  {
    assert !IsWhitespace(m[0]) && !IsWhitespace(m[4]);
    assert ToLower(m)[0] == 'h';
  }

  /** Worked example: {message: "Ping"} is answered with "pong". */
  lemma ExecutePingExample(args: Json, t: string)
    requires args == Obj(map["message" := Str("Ping")])
    ensures Execute(args, t) == Success(PingPongResponse("pong", t))
  {
    var m := args.fields["message"].s;
    PingFolds(m);
    ExecuteTrimmedMessage(args, t);
    ProcessTrimmedMessage(m);
  }

  /** Worked example: {message: "hello"} is answered with the refusal quoting it. */
  lemma ExecuteHelloExample(args: Json, t: string)
    requires args == Obj(map["message" := Str("hello")])
    ensures Execute(args, t) == Success(PingPongResponse(Refusal("hello"), t))
  {
    var m := args.fields["message"].s;
    HelloDoesNotFold(m);
    ExecuteTrimmedMessage(args, t);
    ProcessTrimmedMessage(m);
  }

  /** Worked example: {message: "   "} fails with EMPTY_MESSAGE kept in `details`. */
  lemma ExecuteBlankExample(args: Json, t: string)
    requires args == Obj(map["message" := Str("   ")])
    ensures Execute(args, t)
            == Failure(ToolError(EXECUTION_ERROR, "Failed to execute ping_pong tool",
                                 Some(ToolError(EMPTY_MESSAGE, "Message cannot be empty", None))))
  {
    assert args.fields["message"].s == "   ";
    assert AllWhitespace("   ") by {
      assert forall i :: 0 <= i < 3 ==> "   "[i] == ' ';
    }
    ValidateArgumentsClassifies(args);
    assert ValidateArguments(args) == Failure(ToolError(EMPTY_MESSAGE, "Message cannot be empty", None));
  }

  /** Worked example: {message: 123} fails with INVALID_MESSAGE kept in `details`. */
  lemma ExecuteNumberExample(args: Json, t: string)
    requires args == Obj(map["message" := Num(123)])
    ensures Execute(args, t)
            == Failure(ToolError(EXECUTION_ERROR, "Failed to execute ping_pong tool",
                                 Some(ToolError(INVALID_MESSAGE, "Message must be a string", None))))
  {
    assert args.fields["message"] == Num(123);
    ValidateArgumentsClassifies(args);
  }

  /** Worked example: null arguments fail with INVALID_ARGS kept in `details`. */
  lemma ExecuteNullExample(t: string)
    ensures Execute(Null, t)
            == Failure(ToolError(EXECUTION_ERROR, "Failed to execute ping_pong tool",
                                 Some(ToolError(INVALID_ARGS, "Arguments must be an object", None))))
  {
  }
}
