/**
 JSON-RPC 2.0 over lines (harness/src/jsonrpc.ts, dispatcher.ts, methods.ts, index.ts).  JSON text is taken as given:
 a line is either not JSON, with the parser's message, or the JSON value it denotes; numbers are finite.
 */
module JsonRpc {
  import opened Options

  datatype Json = Null | Bool(b: bool) | Num(n: real) | Str(s: string) | Arr(items: seq<Json>) | Obj(fields: map<string, Json>)

  datatype Line = NotJson(message: string) | Of(json: Json)

  datatype Id = NullId | StringId(s: string) | NumberId(n: real)

  const VERSION := Str("2.0")

  const PARSE_ERROR: real := -32700.0
  const INVALID_REQUEST: real := -32600.0
  const METHOD_NOT_FOUND: real := -32601.0
  const INTERNAL_ERROR: real := -32603.0

  datatype Request = Request(id: Id, name: string, params: Option<Json>)

  datatype ParsedRequest =
    | Call(request: Request)
    | Notification(name: string, params: Option<Json>)
    | BadRequest(id: Id, code: real, message: string)

  datatype Response = Success(id: Id, result: Json) | Failure(id: Id, code: real, message: string, data: Option<Json>)

  datatype ParsedResponse = Answer(response: Response) | BadResponse(id: Id, code: real, message: string)

  function ToId(j: Json): Option<Id> {
    match j
    case Null => Some(NullId)
    case Str(s) => Some(StringId(s))
    case Num(n) => Some(NumberId(n))
    case _ => None
  }

  function FromId(id: Id): Json {
    match id
    case NullId => Null
    case StringId(s) => Str(s)
    case NumberId(n) => Num(n)
  }

  /** Reading a field that is absent gives undefined. */
  function Field(m: map<string, Json>, key: string): Option<Json> {
    if key in m then Some(m[key]) else None
  }

  function RecoveredId(m: map<string, Json>): Id {
    match Field(m, "id")
    case None => NullId
    case Some(j) => (match ToId(j) case Some(id) => id case None => NullId)
  }

  // ---------------------------------------------------------------- requests

  function ParseRequest(line: Line): ParsedRequest {
    match line
    case NotJson(message) => BadRequest(NullId, PARSE_ERROR, message)
    case Of(json) =>
      if !json.Obj? then BadRequest(NullId, INVALID_REQUEST, "request must be a JSON object")
      else
        var m := json.fields;
        if Field(m, "jsonrpc") != Some(VERSION) then
          BadRequest(RecoveredId(m), INVALID_REQUEST, "jsonrpc field must be \"2.0\"")
        else if !(Field(m, "method").Some? && m["method"].Str? && m["method"].s != "") then
          BadRequest(RecoveredId(m), INVALID_REQUEST, "method field must be a non-empty string")
        else if "id" !in m then Notification(m["method"].s, Field(m, "params"))
        else
          match ToId(m["id"])
          case None => BadRequest(RecoveredId(m), INVALID_REQUEST, "id field must be string, number, or null")
          case Some(id) => Call(Request(id, m["method"].s, Field(m, "params")))
  }

  function WithParams(m: map<string, Json>, params: Option<Json>): map<string, Json> {
    match params
    case None => m
    case Some(p) => m["params" := p]
  }

  /** What the client prints for a request. */
  function RequestJson(r: Request): Json {
    Obj(WithParams(map["jsonrpc" := VERSION, "id" := FromId(r.id), "method" := Str(r.name)], r.params))
  }

  // ---------------------------------------------------------------- responses

  function ErrorJson(code: real, message: string, data: Option<Json>): Json {
    match data
    case None => Obj(map["code" := Num(code), "message" := Str(message)])
    case Some(d) => Obj(map["code" := Num(code), "message" := Str(message), "data" := d])
  }

  /** What successResponse and errorResponse print. */
  function ResponseJson(r: Response): Json {
    match r
    case Success(id, result) => Obj(map["jsonrpc" := VERSION, "id" := FromId(id), "result" := result])
    case Failure(id, code, message, data) =>
      Obj(map["jsonrpc" := VERSION, "id" := FromId(id), "error" := ErrorJson(code, message, data)])
  }

  function ParseError(id: Id, error: Json): ParsedResponse {
    if !error.Obj? then BadResponse(id, INVALID_REQUEST, "error field must be an object")
    else
      var e := error.fields;
      if !(Field(e, "code").Some? && e["code"].Num?) then
        BadResponse(id, INVALID_REQUEST, "error.code field must be a number")
      else if !(Field(e, "message").Some? && e["message"].Str?) then
        BadResponse(id, INVALID_REQUEST, "error.message field must be a string")
      else Answer(Failure(id, e["code"].n, e["message"].s, Field(e, "data")))
  }

  function ParseResponse(line: Line): ParsedResponse {
    match line
    case NotJson(message) => BadResponse(NullId, PARSE_ERROR, message)
    case Of(json) =>
      if !json.Obj? then BadResponse(NullId, INVALID_REQUEST, "response must be a JSON object")
      else
        var m := json.fields;
        if Field(m, "jsonrpc") != Some(VERSION) then
          BadResponse(RecoveredId(m), INVALID_REQUEST, "jsonrpc field must be \"2.0\"")
        else if !("id" in m && ToId(m["id"]).Some?) then
          BadResponse(RecoveredId(m), INVALID_REQUEST, "id field must be string, number, or null")
        else
          var id := ToId(m["id"]).value;
          if ("result" in m) == ("error" in m) then
            BadResponse(id, INVALID_REQUEST, "response must carry exactly one of result or error")
          else if "result" in m then Answer(Success(id, m["result"]))
          else ParseError(id, m["error"])
  }

  function LooksLikeResponse(line: Line): bool {
    line.Of? && line.json.Obj? && "method" !in line.json.fields
    && ("result" in line.json.fields || "error" in line.json.fields)
  }

  lemma IdRoundTrip(id: Id)
    ensures ToId(FromId(id)) == Some(id)
  {
  }

  lemma ErrorRoundTrip(id: Id, code: real, message: string, data: Option<Json>)
    ensures ParseError(id, ErrorJson(code, message, data)) == Answer(Failure(id, code, message, data))
  {
    var e := ErrorJson(code, message, data).fields;
    assert e["code"] == Num(code) && e["message"] == Str(message);
    assert Field(e, "data") == data;
  }

  lemma SuccessRoundTrip(id: Id, result: Json)
    ensures ParseResponse(Of(ResponseJson(Success(id, result)))) == Answer(Success(id, result))
  {
    var m := ResponseJson(Success(id, result)).fields;
    IdRoundTrip(id);
    assert Field(m, "jsonrpc") == Some(VERSION) && m["id"] == FromId(id);
    assert "result" in m && "error" !in m && m["result"] == result;
  }

  lemma FailureRoundTrip(id: Id, code: real, message: string, data: Option<Json>)
    ensures ParseResponse(Of(ResponseJson(Failure(id, code, message, data)))) == Answer(Failure(id, code, message, data))
  {
    var m := ResponseJson(Failure(id, code, message, data)).fields;
    IdRoundTrip(id);
    ErrorRoundTrip(id, code, message, data);
    assert Field(m, "jsonrpc") == Some(VERSION) && m["id"] == FromId(id);
    assert "result" !in m && "error" in m && m["error"] == ErrorJson(code, message, data);
  }

  /** Every response envelope, printed and parsed, is itself, and the read loop takes it for a response. */
  lemma ResponseRoundTrip(r: Response)
    ensures ParseResponse(Of(ResponseJson(r))) == Answer(r)
    ensures LooksLikeResponse(Of(ResponseJson(r)))
  {
    match r
    case Success(id, result) => SuccessRoundTrip(id, result);
    case Failure(id, code, message, data) => FailureRoundTrip(id, code, message, data);
  }

  /** Every request envelope, printed and parsed, is itself, and the read loop does not take it for a response. */
  lemma RequestRoundTrip(r: Request)
    requires r.name != ""
    ensures ParseRequest(Of(RequestJson(r))) == Call(r)
    ensures !LooksLikeResponse(Of(RequestJson(r)))
  {
    var m := RequestJson(r).fields;
    assert m["id"] == FromId(r.id) && m["method"] == Str(r.name) && m["jsonrpc"] == VERSION;
  }

  // ---------------------------------------------------------------- dispatch

  /** What a handler does: it returns a value, throws a MethodError, another Error, or something else. */
  datatype Handled = Returned(value: Json) | ThrewMethodError(code: real, message: string, data: Option<Json>)
                   | ThrewError(message: string) | ThrewOther

  type Handler = Option<Json> -> Handled

  datatype Outcome = Done(result: Json) | Failed(code: real, message: string, data: Option<Json>)

  function Dispatch(registry: map<string, Handler>, name: string, params: Option<Json>): Outcome {
    if name !in registry then Failed(METHOD_NOT_FOUND, "method not found: " + name, None)
    else
      match registry[name](params)
      case Returned(value) => Done(value)
      case ThrewMethodError(code, message, data) => Failed(code, message, data)
      case ThrewError(message) => Failed(INTERNAL_ERROR, message, None)
      case ThrewOther => Failed(INTERNAL_ERROR, "internal error", None)
  }

  function Reply(id: Id, outcome: Outcome): Response {
    match outcome
    case Done(result) => Success(id, result)
    case Failed(code, message, data) => Failure(id, code, message, data)
  }

  function HandleLine(registry: map<string, Handler>, line: Line): Option<Json> {
    match ParseRequest(line)
    case BadRequest(id, code, message) => Some(ResponseJson(Failure(id, code, message, None)))
    case Notification(name, params) => None
    case Call(request) => Some(ResponseJson(Reply(request.id, Dispatch(registry, request.name, request.params))))
  }

  // ---------------------------------------------------------------- what the specification asks for

  /** An object with the version and a non-empty method name. */
  predicate Envelope(line: Line) {
    line.Of? && line.json.Obj? &&
    var m := line.json.fields;
    "jsonrpc" in m && m["jsonrpc"] == Str("2.0") && "method" in m && m["method"].Str? && m["method"].s != ""
  }

  /** Section 4.1 of the JSON-RPC 2.0 specification: a request object without an "id" member. */
  predicate IsNotification(line: Line) { Envelope(line) && "id" !in line.json.fields }

  /** Section 4: a request object whose "id" is a string, a number or null. */
  predicate IsRequest(line: Line) { Envelope(line) && "id" in line.json.fields && ToId(line.json.fields["id"]).Some? }

  /** Section 5: the id to answer with, null when the request's id could not be detected. */
  function IdOf(line: Line): Id {
    if line.Of? && line.json.Obj? && "id" in line.json.fields && ToId(line.json.fields["id"]).Some?
    then ToId(line.json.fields["id"]).value
    else NullId
  }

  /** No line is written exactly for the well-formed notifications, whatever the registry does. */
  lemma SilentExactlyForNotifications(registry: map<string, Handler>, line: Line)
    ensures HandleLine(registry, line) == None <==> IsNotification(line)
  {
  }

  /** The response that a line asks for, with the codes of section 5.1. */
  predicate RightResponse(registry: map<string, Handler>, line: Line, r: Response) {
    if line.NotJson? then r == Failure(NullId, -32700.0, line.message, None)
    else if !IsRequest(line) then r.Failure? && r.code == -32600.0 && r.data == None
    else
      var name, params := line.json.fields["method"].s, Field(line.json.fields, "params");
      if name !in registry then r.Failure? && r.code == -32601.0 && r.data == None
      else
        match registry[name](params)
        case Returned(value) => r == Success(IdOf(line), value)
        case ThrewMethodError(code, message, data) => r == Failure(IdOf(line), code, message, data)
        case ThrewError(message) => r == Failure(IdOf(line), -32603.0, message, None)
        case ThrewOther => r.Failure? && r.code == -32603.0 && r.data == None
  }

  // ---------------------------------------------------------------- which lines are responses

  /** Section 5: the version, an id, and exactly one of a result and an error object with a code and a message. */
  predicate IsResponse(line: Line) {
    line.Of? && line.json.Obj? &&
    var m := line.json.fields;
    && "jsonrpc" in m && m["jsonrpc"] == Str("2.0")
    && "id" in m && (m["id"].Null? || m["id"].Str? || m["id"].Num?)
    && if "result" in m then "error" !in m else "error" in m && IsErrorObject(m["error"])
  }

  predicate IsErrorObject(e: Json) {
    e.Obj? && "code" in e.fields && e.fields["code"].Num? && "message" in e.fields && e.fields["message"].Str?
  }

  /** What a response says: its id, and its result or the fields of its error. */
  predicate Says(line: Line, r: Response)
    requires IsResponse(line)
  {
    var m := line.json.fields;
    && m["id"] == FromId(r.id)
    && match r
       case Success(_, result) => "result" in m && m["result"] == result
       case Failure(_, code, message, data) =>
         && "error" in m && m["error"].fields["code"] == Num(code) && m["error"].fields["message"] == Str(message)
         && (if "data" in m["error"].fields then data == Some(m["error"].fields["data"]) else data == None)
  }

  /** A line parses as a response exactly when it is one, and then to what it says; otherwise the error is "parse error"
      exactly for what is not JSON, and carries the id if there is one to recover. */
  lemma ResponsesAreParsed(line: Line)
    ensures ParseResponse(line).Answer? <==> IsResponse(line)
    ensures IsResponse(line) ==> Says(line, ParseResponse(line).response)
    ensures ParseResponse(line).BadResponse? ==>
      && ParseResponse(line).code == (if line.NotJson? then -32700.0 else -32600.0)
      && ParseResponse(line).id == IdOf(line)
  {
  }

  /** The read loop never mistakes a request for a response, and sends every response to the client that does not also
      name a method. */
  lemma LinesGoWhereTheyBelong(line: Line)
    ensures Envelope(line) ==> !LooksLikeResponse(line)
    ensures IsResponse(line) ==> (LooksLikeResponse(line) <==> "method" !in line.json.fields)
    ensures LooksLikeResponse(line) ==> !IsRequest(line) && !IsNotification(line)
  {
  }

  /** Every line written parses back, as a response, to one envelope: it carries the id of the request, and what it
      says is what the specification asks for that request. */
  lemma AnswersAreRight(registry: map<string, Handler>, line: Line) returns (r: Response)
    requires HandleLine(registry, line).Some?
    ensures ParseResponse(Of(HandleLine(registry, line).value)) == Answer(r)
    ensures r.id == IdOf(line) && RightResponse(registry, line, r)
    ensures LooksLikeResponse(Of(HandleLine(registry, line).value))
  {
    match ParseRequest(line)
    case BadRequest(id, code, message) =>
      r := Failure(id, code, message, None);
      RefusalIsRight(registry, line);
      ResponseRoundTrip(r);
    case Call(request) =>
      r := Reply(request.id, Dispatch(registry, request.name, request.params));
      CallIsRight(registry, line);
      ResponseRoundTrip(r);
  }

  lemma RefusalIsRight(registry: map<string, Handler>, line: Line)
    requires ParseRequest(line).BadRequest?
    ensures var p := ParseRequest(line);
      p.id == IdOf(line) && RightResponse(registry, line, Failure(p.id, p.code, p.message, None))
  {
  }

  lemma CallIsRight(registry: map<string, Handler>, line: Line)
    requires ParseRequest(line).Call?
    ensures var q := ParseRequest(line).request;
      q.id == IdOf(line) && RightResponse(registry, line, Reply(q.id, Dispatch(registry, q.name, q.params)))
  {
  }
}
