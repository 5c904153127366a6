/** The wire shapes of the streaming Messages API as the client decodes them,
    the events it hands to its consumer, and the pure pieces of the request
    task: tool selection, the terminal error message chosen from an HTTP
    status, and the mapping of a code-execution result to an event. */
module Anthropic {
  import opened Prelude

  // ---------------------------------------------------------------------------
  // Request side

  /** One turn of the conversation as sent to the API. */
  datatype Message = Message(role: string, content: string)

  datatype Tool = Tool(toolType: string, name: string)

  datatype MessagesRequest = MessagesRequest(
    model: string,
    messages: seq<Message>,
    maxTokens: nat,
    stream: bool,
    tools: Option<seq<Tool>>)

  /** The name of the one server tool the client asks for and listens to. */
  const CODE_TOOL_NAME: string := "code_execution"
  const CODE_TOOL_TYPE: string := "code_execution_20250522"
  const DEFAULT_MODEL: string := "claude-sonnet-4-20250514"
  const MAX_TOKENS: nat := 4096
  const BETA_HEADER_VALUE: string := "code-execution-2025-05-22,files-api-2025-04-14"

  /** The `tools` field of the request: the code-execution tool alone when
      code execution is enabled, absent otherwise. */
  function RequestTools(enableCodeExecution: bool): (r: Option<seq<Tool>>)
    ensures r.Some? <==> enableCodeExecution
    ensures r.Some? ==> |r.value| == 1 && r.value[0].name == CODE_TOOL_NAME
                        && r.value[0].toolType == CODE_TOOL_TYPE
  {
    if enableCodeExecution then Some([Tool(CODE_TOOL_TYPE, CODE_TOOL_NAME)]) else None
  }

  /** The request body; `modelEnv` is the value of ANTHROPIC_MODEL, if set. */
  function BuildRequest(modelEnv: Option<string>, messages: seq<Message>, enableCodeExecution: bool)
    : (r: MessagesRequest)
    ensures r.messages == messages && r.stream && r.maxTokens == MAX_TOKENS
    ensures modelEnv.None? ==> r.model == DEFAULT_MODEL
    ensures modelEnv.Some? ==> r.model == modelEnv.value
    ensures r.tools.Some? <==> enableCodeExecution
    ensures r.tools == RequestTools(enableCodeExecution)
  {
    MessagesRequest(modelEnv.GetOr(DEFAULT_MODEL), messages, MAX_TOKENS, true, RequestTools(enableCodeExecution))
  }

  /** The headers of the request, in the order the builder adds them. */
  function RequestHeaders(apiKey: string, enableCodeExecution: bool): (r: seq<(string, string)>)
    ensures |r| == if enableCodeExecution then 4 else 3
    ensures ("x-api-key", apiKey) in r
    ensures ("anthropic-beta", BETA_HEADER_VALUE) in r <==> enableCodeExecution
    ensures forall h :: h in r && h.0 == "anthropic-beta" ==> enableCodeExecution
  {
    [("x-api-key", apiKey), ("anthropic-version", "2023-06-01"), ("content-type", "application/json")]
    + if enableCodeExecution then [("anthropic-beta", BETA_HEADER_VALUE)] else []
  }

  // ---------------------------------------------------------------------------
  // Decoded stream payloads (the serde enums tagged by their "type" field)

  datatype Container = Container(id: string, expiresAt: string)

  datatype MessageStartData = MessageStartData(container: Option<Container>)

  datatype FileOutput = CodeExecutionOutput(fileId: string)

  datatype CodeExecutionResult =
    | Success(stdout: string, stderr: string, returnCode: Int32, content: seq<FileOutput>)
    | Error(errorCode: string)

  datatype ContentBlock =
    | TextBlock(text: string)
    | ServerToolUse(id: string, name: string)
    | CodeExecutionToolResult(toolUseId: string, result: CodeExecutionResult)

  datatype Delta =
    | TextDelta(text: string)
    | InputJsonDelta(partialJson: string)

  datatype StreamEventData =
    | MessageStart(message: MessageStartData)
    | ContentBlockStart(contentBlock: ContentBlock)
    | ContentBlockDelta(delta: Delta)
    | ContentBlockStop
    | MessageDelta
    | MessageStop

  // ---------------------------------------------------------------------------
  // Events handed to the consumer

  datatype StreamEvent =
    | Text(text: string)
    | CodeInput(code: string)
    | CodeOutput(stdout: string, stderr: string, returnCode: Int32, files: seq<(string, string)>)
    | CodeError(error: string)
    | ContainerInfo(id: string, expiresAt: string)
    | ConnectionStatus(status: string)

  /** The (file id, file name) pairs of a successful result: each file is
      named by its own id until its metadata is resolved. */
  function FilePairs(outputs: seq<FileOutput>): (r: seq<(string, string)>)
    ensures |r| == |outputs|
    ensures forall i :: 0 <= i < |r| ==> r[i] == (outputs[i].fileId, outputs[i].fileId)
  {
    if outputs == [] then [] else [(outputs[0].fileId, outputs[0].fileId)] + FilePairs(outputs[1..])
  }

  /** The one event a tool-result block becomes. */
  function InterpretResult(result: CodeExecutionResult): (e: StreamEvent)
    ensures result.Success? ==> e.CodeOutput? && e.stdout == result.stdout && e.stderr == result.stderr
                                && e.returnCode == result.returnCode && |e.files| == |result.content|
    ensures result.Success? ==> forall i :: 0 <= i < |e.files| ==>
                                  e.files[i].0 == e.files[i].1 == result.content[i].fileId
    ensures result.Error? ==> e == CodeError(result.errorCode)
  {
    match result
    case Success(stdout, stderr, returnCode, content) => CodeOutput(stdout, stderr, returnCode, FilePairs(content))
    case Error(errorCode) => CodeError(errorCode)
  }

  // ---------------------------------------------------------------------------
  // Connection outcome and the terminal error message

  /** An HTTP status code as reqwest represents it. */
  type StatusCode = c: int | 100 <= c < 1000 witness 200

  predicate IsSuccess(status: StatusCode) { 200 <= status < 300 }

  predicate IsServerError(status: StatusCode) { 500 <= status < 600 }

  /** What the request produced: the transport error's text, or a response
      with its status, the status's canonical reason phrase and the body
      (None when reading the body failed). */
  datatype RequestOutcome =
    | SendFailed(error: string)
    | Responded(status: StatusCode, reason: Option<string>, body: Option<string>)

  datatype ApiErrorKind = Authentication | InvalidModel | BadRequest | RateLimited | ServerSide | Unclassified

  /** The class of a non-success response, by status and, for 400, by body. */
  function Classify(status: StatusCode, body: string): (k: ApiErrorKind)
    ensures k == Authentication <==> status == 401
    ensures k == InvalidModel <==> status == 400 && Contains(body, "model")
    ensures k == BadRequest <==> status == 400 && !Contains(body, "model")
    ensures k == RateLimited <==> status == 429
    ensures k == ServerSide <==> IsServerError(status)
    ensures k == Unclassified <==> status !in {400, 401, 429} && !IsServerError(status)
  {
    if status == 401 then Authentication
    else if status == 400 then (if Contains(body, "model") then InvalidModel else BadRequest)
    else if status == 429 then RateLimited
    else if IsServerError(status) then ServerSide
    else Unclassified
  }

  /** `status.to_string()`: the three digits of the code, a space, and the
      code's reason phrase (or "<unknown status code>"). */
  function StatusDisplay(status: StatusCode, reason: Option<string>): (r: string)
    ensures |r| > 3 && r[..3] == DecimalString(status) && r[3] == ' '
    ensures forall i | 0 <= i < 3 :: '0' <= r[i] <= '9'
    ensures DigitsValue(r[..3]) == status
    ensures r[4..] == reason.GetOr("<unknown status code>")
  {
    ThreeDigits(status);
    var r := DecimalString(status) + " " + reason.GetOr("<unknown status code>");
    assert r[..3] == DecimalString(status);
    r
  }

  const AUTH_LABEL: string := "Invalid or missing API key"
  const MODEL_LABEL: string := "Invalid model name"
  const BAD_REQUEST_LABEL: string := "Bad request"
  const RATE_LIMIT_LABEL: string := "Rate limit exceeded"
  const SERVER_LABEL: string := "Anthropic server error"
  const OTHER_HEAD: string := "API error ("
  const LABEL_END: string := ": "

  /** The label the message of each kind starts with. */
  function KindLabel(kind: ApiErrorKind, status: StatusCode, reason: Option<string>): string {
    match kind
    case Authentication => AUTH_LABEL
    case InvalidModel => MODEL_LABEL
    case BadRequest => BAD_REQUEST_LABEL
    case RateLimited => RATE_LIMIT_LABEL
    case ServerSide => SERVER_LABEL
    case Unclassified => OTHER_HEAD + StatusDisplay(status, reason) + ")"
  }

  const UNREADABLE_BODY: string := "Failed to read error response"

  /** The message of a non-success response: its label, then the body (or
      the notice that the body could not be read), which ends it. */
  function ApiErrorMessage(status: StatusCode, reason: Option<string>, body: Option<string>): (m: string)
    ensures var t := body.GetOr(UNREADABLE_BODY);
            KindLabel(Classify(status, t), status, reason) + LABEL_END <= m
    ensures var t := body.GetOr(UNREADABLE_BODY); |t| < |m| && m[|m| - |t|..] == t
    ensures var t := body.GetOr(UNREADABLE_BODY);
            |m| == |KindLabel(Classify(status, t), status, reason)| + |LABEL_END| + |t|
  {
    var text := body.GetOr(UNREADABLE_BODY);
    var m := KindLabel(Classify(status, text), status, reason) + LABEL_END + text;
    assert m[|m| - |text|..] == text;
    assert m[..|KindLabel(Classify(status, text), status, reason) + LABEL_END|]
        == KindLabel(Classify(status, text), status, reason) + LABEL_END;
    m
  }

  /** Reads the kind back from a message, by the label it starts with. */
  function KindOfMessage(msg: string): Option<ApiErrorKind> {
    if AUTH_LABEL + LABEL_END <= msg then Some(Authentication)
    else if MODEL_LABEL + LABEL_END <= msg then Some(InvalidModel)
    else if BAD_REQUEST_LABEL + LABEL_END <= msg then Some(BadRequest)
    else if RATE_LIMIT_LABEL + LABEL_END <= msg then Some(RateLimited)
    else if SERVER_LABEL + LABEL_END <= msg then Some(ServerSide)
    else if OTHER_HEAD <= msg then Some(Unclassified)
    else None
  }

  /** The message of a non-success response names its class unambiguously:
      the kind read back from the message is the kind the status chose; an
      unclassified status is spelled out, code and reason, in the message. */
  lemma ApiErrorMessageNamesKind(status: StatusCode, reason: Option<string>, body: Option<string>)
    ensures KindOfMessage(ApiErrorMessage(status, reason, body)) == Some(Classify(status, body.GetOr(UNREADABLE_BODY)))
    ensures Classify(status, body.GetOr(UNREADABLE_BODY)) == Unclassified ==>
              OTHER_HEAD + StatusDisplay(status, reason) + ")" + LABEL_END <= ApiErrorMessage(status, reason, body)
  {
    var t := body.GetOr(UNREADABLE_BODY);
    var kind := Classify(status, t);
    var head := KindLabel(kind, status, reason);
    var m := head + LABEL_END + t;
    assert m[..|head + LABEL_END|] == head + LABEL_END;
    match kind
    case Authentication => ReadsBackAuthentication(t);
    case InvalidModel => ReadsBackInvalidModel(t);
    case BadRequest => ReadsBackBadRequest(t);
    case RateLimited => ReadsBackRateLimited(t);
    case ServerSide => ReadsBackServerSide(t);
    case Unclassified => ReadsBackUnclassified(StatusDisplay(status, reason), t);
  }

  lemma ReadsBackAuthentication(t: string)
    ensures KindOfMessage(AUTH_LABEL + LABEL_END + t) == Some(Authentication)
  {
    var p := AUTH_LABEL + LABEL_END;
    assert (p + t)[..|p|] == p;
  }

  lemma ReadsBackInvalidModel(t: string)
    ensures KindOfMessage(MODEL_LABEL + LABEL_END + t) == Some(InvalidModel)
  {
    var p := MODEL_LABEL + LABEL_END;
    var m := p + t;
    assert m[8] == 'm' && (AUTH_LABEL + LABEL_END)[8] == 'o';
    assert m[..|p|] == p;
  }

  lemma ReadsBackBadRequest(t: string)
    ensures KindOfMessage(BAD_REQUEST_LABEL + LABEL_END + t) == Some(BadRequest)
  {
    var p := BAD_REQUEST_LABEL + LABEL_END;
    var m := p + t;
    assert m[0] == 'B';
    assert m[..|p|] == p;
  }

  lemma ReadsBackRateLimited(t: string)
    ensures KindOfMessage(RATE_LIMIT_LABEL + LABEL_END + t) == Some(RateLimited)
  {
    var p := RATE_LIMIT_LABEL + LABEL_END;
    var m := p + t;
    assert m[0] == 'R';
    assert m[..|p|] == p;
  }

  lemma ReadsBackServerSide(t: string)
    ensures KindOfMessage(SERVER_LABEL + LABEL_END + t) == Some(ServerSide)
  {
    var p := SERVER_LABEL + LABEL_END;
    var m := p + t;
    assert m[0] == 'A' && m[1] == 'n';
    assert m[..|p|] == p;
  }

  lemma ReadsBackUnclassified(display: string, t: string)
    ensures KindOfMessage(OTHER_HEAD + display + ")" + LABEL_END + t) == Some(Unclassified)
  {
    var m := OTHER_HEAD + display + ")" + LABEL_END + t;
    assert m[0] == 'A' && m[1] == 'P';
    assert m[..|OTHER_HEAD|] == OTHER_HEAD;
  }

  const CONNECTING: string := "Connecting to Claude API..."
  const SENDING: string := "Sending request..."

  /** The terminal text event: a blank line, "Error: ", the message, a newline. */
  function ErrorText(msg: string): StreamEvent {
    Text("\n\nError: " + msg + "\n")
  }

  /** What the task delivers before it reads the body, and whether it goes on
      to stream: two connection notices, then either nothing (a success
      status) or exactly one error text. */
  function Preamble(outcome: RequestOutcome): (r: (seq<StreamEvent>, bool))
    ensures |r.0| >= 2 && r.0[..2] == [ConnectionStatus(CONNECTING), ConnectionStatus(SENDING)]
    ensures r.1 <==> outcome.Responded? && IsSuccess(outcome.status)
    ensures r.1 ==> |r.0| == 2
    ensures !r.1 ==> |r.0| == 3 && r.0[2].Text? && "\n\nError: " <= r.0[2].text
    ensures outcome.SendFailed? ==> r.0[2] == ErrorText("Failed to connect to Anthropic API: " + outcome.error)
    ensures outcome.Responded? && !r.1 ==>
              r.0[2] == ErrorText(ApiErrorMessage(outcome.status, outcome.reason, outcome.body))
  {
    var notices := [ConnectionStatus(CONNECTING), ConnectionStatus(SENDING)];
    match outcome
    case SendFailed(e) => (notices + [ErrorText("Failed to connect to Anthropic API: " + e)], false)
    case Responded(status, reason, body) =>
      if IsSuccess(status) then (notices, true)
      else (notices + [ErrorText(ApiErrorMessage(status, reason, body))], false)
  }
}
