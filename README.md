# Ping-pong tool server, modelled in Dafny

The server exposes a single tool, `ping_pong`, to a host that can list tools and call them by name. The tool answers "pong" when the message is "ping", ignoring surrounding whitespace and letter case. Any other non-blank message gets a fixed refusal that quotes it. This project models the request-handling core as pure functions, and proves what each of them promises:

- `wrappers.dfy`: `Option` and `Result`. A thrown `ToolError` is modelled as a `Failure` result.
- `json.dfy`: the untyped JavaScript values a call can carry as `arguments`: `undefined`, `null`, booleans, numbers, strings, arrays and objects. It also models JavaScript's `typeof` and truthiness, which the argument guard is written in.
- `js_text.dfy`: `String.prototype.trim` and `toLowerCase`.
  - `trim` removes exactly ECMAScript's WhiteSpace and LineTerminator code points. That set includes every Unicode `Zs` space.
  - Case folding covers ASCII letters only.
  - Proved about them: trimming is characterised uniquely by the whitespace it strips, trimming is idempotent, and trimming commutes with case folding.
- `ping_pong_tools.dfy`: the tool (`src/tools/pingPongTools.ts`). It covers the fixed definition, the three-step argument guard, the reply rule and `execute`.
- `server.dfy`: configuration defaulting from the environment, and the bodies of the list-tools and call-tool handlers (`src/server.ts`).

The environment is a `map<string, string>`. The clock is a `timestamp`/`now` parameter; every path through the call handler reads the clock at most once. Logging does nothing. A content block holds the structured value the handler serializes (`ToolOutput` or `ErrorReport`), not the pretty-printed JSON text.

Two behaviours of the call handler are easy to miss:

- An unknown tool name gets an error envelope whose only text is `Unknown tool: <name>`; it carries no error code.
- When `execute` fails, the handler catches a plain `ToolError` object. That object is not an `Error` instance, so the caller receives `Unknown error occurred`. The `EXECUTION_ERROR` code, its message and the guard's code in `details` are all dropped (`Server.FailedCallsLoseTheCause`).

## Model

| member | source | states |
|---|---|---|
| `JsText.TrimStart` | src/tools/pingPongTools.ts:56 | drops exactly the leading whitespace: the result is a suffix, what was dropped is all whitespace, and the result does not start with whitespace |
| `JsText.TrimEnd` | src/tools/pingPongTools.ts:56 | drops exactly the trailing whitespace: the result is a prefix, what was dropped is all whitespace, and the result does not end with whitespace |
| `JsText.Trim` | src/tools/pingPongTools.ts:56 | `trim()` returns a string that neither starts nor ends with whitespace and is no longer than its input |
| `JsText.TrimSplits` | src/tools/pingPongTools.ts:60 | the trimmed text is a slice of the input with only whitespace before and after it |
| `JsText.TrimUnique` | src/tools/pingPongTools.ts:60 | any unpadded string with whitespace added on both sides trims back to itself, so trimming is determined by the decomposition it undoes |
| `JsText.TrimIdempotent` | src/tools/pingPongTools.ts:60 | trimming a trimmed string changes nothing |
| `JsText.ToLower` | src/tools/pingPongTools.ts:64 | `toLowerCase()` keeps the length and folds each character in place (ASCII letters only) |
| `JsText.TrimToLowerCommute` | src/tools/pingPongTools.ts:64 | lower-casing then trimming gives the same string as trimming then lower-casing |
| `Json.ObjectGuard` | src/tools/pingPongTools.ts:46-48 | the first guard (falsy, or `typeof` not `object`) rejects exactly the values that are neither arrays nor objects; `null` passes the `typeof` test and is stopped by the falsiness test |
| `PingPongTools.GetDefinition` | src/tools/pingPongTools.ts:6-23 | the definition is always named `ping_pong`, takes an object schema with exactly one described property `message` of type `string`, and requires `["message"]` |
| `PingPongTools.DefinitionSchemaAdmits` | src/tools/pingPongTools.ts:9-18 | the advertised schema admits exactly the objects whose `message` property is a string |
| `PingPongTools.DefinitionMatchesValidation` | src/tools/pingPongTools.ts:45-61 | arguments the guard accepts conform to the advertised schema; conforming arguments fail the guard only with EMPTY_MESSAGE |
| `PingPongTools.CreateToolError` | src/tools/pingPongTools.ts:73-79 | the error record carries exactly the given code, message and details |
| `PingPongTools.ValidateArguments` | src/tools/pingPongTools.ts:45-61 | success only for an object with a string `message`, returning exactly its trim, which is non-empty and unpadded; every failure carries one of the three guard codes and no details |
| `PingPongTools.ValidateArgumentsClassifies` | src/tools/pingPongTools.ts:46-58 | the checks run in order. A non-array, non-object value (null included) gives INVALID_ARGS first. An array, or an object without a string `message`, gives INVALID_MESSAGE. An all-whitespace message gives EMPTY_MESSAGE. Anything else succeeds with the trimmed message. Each failure has the source's exact message text |
| `PingPongTools.TrimEmptyIffBlank` | src/tools/pingPongTools.ts:56-58 | a message trims to the empty string exactly when it is all whitespace |
| `PingPongTools.ProcessMessage` | src/tools/pingPongTools.ts:63-71 | the reply is "pong" if and only if the trimmed, case-folded message is "ping"; any other reply is exactly `I received "<message>", but I only respond with "pong" when you send "ping"` |
| `PingPongTools.ProcessTrimmedMessage` | src/tools/pingPongTools.ts:63-71 | for an already trimmed message, the reply depends only on its case folding |
| `PingPongTools.Execute` | src/tools/pingPongTools.ts:25-43 | succeeds exactly when validation succeeds, with the reply to the validated message and the given timestamp. Every failure is `{EXECUTION_ERROR, "Failed to execute ping_pong tool", details: <guard error>}` |
| `PingPongTools.ExecuteHidesValidationCodes` | src/tools/pingPongTools.ts:39-41 | a failure of `execute` never carries a guard code itself; the guard's code survives only in `details` |
| `PingPongTools.ExecuteResponseIgnoresClock` | src/tools/pingPongTools.ts:30-35 | two calls with the same arguments agree on success and on the reply text, whatever the timestamp |
| `PingPongTools.ExecutePongIff` | src/tools/pingPongTools.ts:60-68 | `execute` answers "pong" exactly for an object whose string `message` is "ping" up to surrounding whitespace and letter case |
| `PingPongTools.ExecuteRefusalQuotesTrimmedMessage` | src/tools/pingPongTools.ts:60-70 | any other accepted message is quoted back trimmed but not case-folded |
| `PingPongTools.ExecuteTrimmedMessage` | src/tools/pingPongTools.ts:27-38 | an object whose string message is already trimmed and non-empty is answered according to that message as it stands |
| `PingPongTools.ExecutePingExample` | src/tools/pingPongTools.ts:63-68 | `{message: "Ping"}` yields `{response: "pong", timestamp}` |
| `PingPongTools.ExecuteHelloExample` | src/tools/pingPongTools.ts:70 | `{message: "hello"}` yields the refusal quoting "hello" |
| `PingPongTools.ExecuteBlankExample` | src/tools/pingPongTools.ts:56-58 | `{message: "   "}` fails with EXECUTION_ERROR wrapping EMPTY_MESSAGE |
| `PingPongTools.ExecuteNumberExample` | src/tools/pingPongTools.ts:52-54 | `{message: 123}` fails with EXECUTION_ERROR wrapping INVALID_MESSAGE |
| `PingPongTools.ExecuteNullExample` | src/tools/pingPongTools.ts:46-48 | `null` arguments fail with EXECUTION_ERROR wrapping INVALID_ARGS |
| `Server.LoadConfig` | src/server.ts:40-46 | each field is its environment variable when that is set and non-empty; otherwise it is `ping-pong-server`, `info` or `development` |
| `Server.LoadConfigNeverEmpty` | src/server.ts:40-46 | no configuration field is ever empty |
| `Server.LoadConfigReadsThreeVariables` | src/server.ts:40-46 | environments that agree on the three variables give the same configuration; one with none of them set gives the defaults |
| `Server.ListTools` | src/server.ts:55-63 | the list holds exactly one tool, the ping-pong definition |
| `Server.ErrorMessage` | src/server.ts:110 | a caught `Error` instance is reported by its own message; any other caught value, a `ToolError` included, as `Unknown error occurred` |
| `Server.CallTool` | src/server.ts:66-127 | every call yields exactly one text block. The flag `isError` is set exactly when the name is not `ping_pong` or `execute` fails. An unknown name gives `Unknown tool: <name>`. A failed `execute` gives `Unknown error occurred`. A successful call carries the tool's result |
| `Server.ListedNamesAreDispatched` | src/server.ts:55-103 | a name is reported as an unknown tool exactly when the list handler does not advertise it; the match is case-sensitive |
| `Server.FailedCallsLoseTheCause` | src/server.ts:104-125 | every failed `ping_pong` call returns the same error envelope, `Unknown error occurred`, with no code |
| `Server.SuccessfulCallCarriesReply` | src/server.ts:73-86 | a successful call is not flagged as an error and carries the reply to the validated message, stamped with the call's time |
| `Server.CallToolBlankExample` | src/server.ts:104-125 | a call with `{message: ""}` yields an error envelope saying `Unknown error occurred` |

## Left out

- Logging (`src/utils/logger.ts` and every `logger` call) is treated as doing nothing.
- The process handlers for signals, uncaught exceptions and unhandled rejections, and `process.exit`, are left out. They belong to the operating-system process lifecycle.
- The transport, `Server.connect`, `setRequestHandler` registration and `start` are left out; they are calls into the protocol SDK. The constructor of `MCPPingPongServer`, which only assigns its fields and registers the handlers, is left out with them.
- Loading `.env` with `dotenv` is not modelled. The environment is an input map.
- `new Date().toISOString()` is not modelled. The timestamp is an opaque string parameter.
- The exact text produced by `JSON.stringify(..., null, 2)` is not modelled. Content blocks hold the value that would be serialized.
- JavaScript `Promise`s and `async` are not modelled. Each handler is a synchronous function.
- `JsText.ToLower`: folds ASCII letters only, not full Unicode `toLowerCase`. Under full folding, non-ASCII letters could lower-case to different strings. The model assumes none of them lower-cases to a letter of "ping".
- `Json.Json`: numbers are integers. There is no NaN or fraction, which affects only the truthiness of numbers, and the guard rejects those anyway by `typeof`.
- `Json.Property`: arrays carry no named properties. Their index and `length` properties are not modelled; the only key the tool reads is `message`.
- `PingPongTools.ToolError`: `details` holds a `ToolError` or nothing. In the source it is `unknown`, but only guard errors ever reach it.
- `Server.ErrorMessage`: the `Error` instance branch is modelled, but `CallTool` never reaches it. Only `ToolError` objects, which are not `Error` instances, can be thrown inside the handler.
- `Server.CallTool`: a successful call carries `isError` set to `false`, where the source's envelope has no `isError` key at all; the protocol reads a missing key as `false`.
- Strings are sequences of Unicode scalar values, not JavaScript's UTF-16 code units, so a message holding a lone surrogate has no counterpart in the model.
