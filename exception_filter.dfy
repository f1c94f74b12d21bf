/** HttpExceptionFilter (src/infrastructure/common/filter/exception.filter.ts):
 *  turns an exception into an HTTP status and a JSON body, and writes one
 *  "End Request" log line whose level depends on whether the status is 500. */
module ExceptionFilter {
  import opened Domain
  import opened Collaborators
  import opened Text

  const InternalServerError := 500

  /** The flat JSON values an exception response carries. */
  datatype Json = JStr(s: string) | JNum(n: int) | JBool(b: bool) | JNull | JUndefined

  /** A JSON object; a key bound to JUndefined is present but undefined. */
  type JsonObject = map<string, Json>

  /** What reaches the filter: an HttpException (its status, its response
   *  object and its stack) or any other Error. */
  datatype Caught =
    | HttpException(status: int, response: JsonObject, stack: Option<string>)
    | PlainError(message: string, stack: Option<string>)

  /** The parts of the express request the filter reads. */
  datatype Request = Request(url: string, path: string, verb: string)

  /** The HttpException the exception service throws for an abort: the
   *  exception's own status, with `{ message }` as its response. */
  function FromAbort(kind: AbortKind, message: string, stack: Option<string>): (e: Caught)
    ensures e.HttpException? && e.status == Status(kind) && e.stack == stack
    // `{ message }` only: no errCode
    ensures e.response.Keys == {"message"} && e.response["message"] == JStr(message)
  {
    HttpException(Status(kind), map["message" := JStr(message)], stack)
  }

  /** `status`: 500 unless the exception supplies its own. */
  function StatusOf(e: Caught): (s: int)
    ensures e.HttpException? ==> s == e.status
    ensures e.PlainError? ==> s == InternalServerError
  {
    if e.HttpException? then e.status else InternalServerError
  }

  /** `result`: the exception's response, or the error's message with an undefined errCode. */
  function ResultOf(e: Caught): (r: JsonObject)
    ensures e.HttpException? ==> r == e.response
    ensures e.PlainError? ==>
      (r.Keys == {"message", "errCode"} && r["message"] == JStr(e.message) && r["errCode"] == JUndefined)
  {
    if e.HttpException? then e.response
    else map["message" := JStr(e.message), "errCode" := JUndefined]
  }

  /** `{ statusCode, timestamp, path, ...result }`. */
  function ResponseBody(status: int, timestamp: string, request: Request, result: JsonObject): (b: JsonObject)
    ensures b.Keys == {"statusCode", "timestamp", "path"} + result.Keys
    // the result is spread last: each of its keys wins, including the three above
    ensures forall k <- result.Keys :: b[k] == result[k]
    ensures "statusCode" !in result ==> b["statusCode"] == JNum(status)
    ensures "timestamp" !in result ==> b["timestamp"] == JStr(timestamp)
    ensures "path" !in result ==> b["path"] == JStr(request.url)
  {
    map["statusCode" := JNum(status), "timestamp" := JStr(timestamp), "path" := JStr(request.url)] + result
  }

  /** What `res.json` puts on the wire: JSON.stringify leaves out every key
   *  bound to undefined and keeps the others as they are. */
  function Serialized(o: JsonObject): (w: JsonObject)
    ensures forall k :: k in w <==> k in o && !o[k].JUndefined?
    ensures forall k <- w.Keys :: w[k] == o[k]
    // nothing undefined is left, and an object without undefined values passes unchanged
    ensures forall k <- w.Keys :: !w[k].JUndefined?
    ensures (forall k <- o.Keys :: !o[k].JUndefined?) ==> w == o
  {
    map k | k in o && !o[k].JUndefined? :: o[k]
  }

  /** A key of the result as read by `message.key`: undefined when absent. */
  function Field(result: JsonObject, key: string): (v: Json)
    ensures key in result ==> v == result[key]
    ensures key !in result ==> v == JUndefined
  {
    if key in result then result[key] else JUndefined
  }

  /** `${v ?? null}` */
  function Interpolate(v: Json): (t: string)
    ensures v.JNull? || v.JUndefined? ==> t == "null"
    ensures v.JStr? ==> t == v.s
    // a number is written in decimal and reads back as itself
    ensures v.JNum? ==>
      (IsIntText(t) && ParseInt(t) == v.n)
  {
    match v
    case JStr(s) => s
    case JNum(n) => IntToStringRoundTrip(n); IntToString(n)
    case JBool(b) => if b then "true" else "false"
    case JNull => "null"
    case JUndefined => "null"
  }

  /** `method=<m> status=<s> errCode=<errCode or null> message=<message or null>` */
  function DetailLine(verb: string, status: int, result: JsonObject): (line: string)
    // the method comes first, the message last
    ensures var head := "method=" + verb + " status=";
      |head| <= |line| && line[..|head|] == head
    ensures var tail := " message=" + Interpolate(Field(result, "message"));
      |tail| <= |line| && line[|line| - |tail|..] == tail
  {
    "method=" + verb + " status=" + IntToString(status)
      + " errCode=" + Interpolate(Field(result, "errCode"))
      + " message=" + Interpolate(Field(result, "message"))
  }

  /** `End Request for <path>` */
  function EndRequest(path: string): (context: string)
    // the path can be read back after the fixed prefix
    ensures |context| == 16 + |path| && context[16..] == path
  {
    "End Request for " + path
  }

  /** The line logMessage writes. */
  function FilterLog(path: string, verb: string, result: JsonObject, status: int, stack: Option<string>): (e: LogEntry)
    // an error line, with the stack, exactly when the status is 500; a warn without it otherwise
    ensures e.level == Level.Error <==> status == InternalServerError
    ensures e.level == Level.Error || e.level == Level.Warn
    ensures status == InternalServerError ==> e.trace == stack
    ensures status != InternalServerError ==> e.trace == None
    // the same context and detail text either way
    ensures e.context == EndRequest(path)
    ensures e.message == Plain(DetailLine(verb, status, result))
  {
    if status == InternalServerError then
      LogEntry(Level.Error, EndRequest(path), Plain(DetailLine(verb, status, result)), stack)
    else
      LogEntry(Level.Warn, EndRequest(path), Plain(DetailLine(verb, status, result)), None)
  }

  /** An absent errCode, an undefined one and a null one read the same in the log. */
  lemma AbsentReadsAsNull(verb: string, status: int, result: JsonObject)
    requires "errCode" !in result
    ensures DetailLine(verb, status, result) == DetailLine(verb, status, result["errCode" := JUndefined])
    ensures DetailLine(verb, status, result) == DetailLine(verb, status, result["errCode" := JNull])
  {
    assert Field(result["errCode" := JNull], "message") == Field(result, "message");
    assert Field(result["errCode" := JUndefined], "message") == Field(result, "message");
  }

  /** An abort of a use case reaches the client with the exception's status
   *  and message and with no errCode. */
  lemma AbortResponse(kind: AbortKind, message: string, stack: Option<string>, request: Request, timestamp: string)
    ensures var e := FromAbort(kind, message, stack);
      var body := ResponseBody(StatusOf(e), timestamp, request, ResultOf(e));
      && StatusOf(e) == Status(kind)
      && body.Keys == {"statusCode", "timestamp", "path", "message"}
      && body["statusCode"] == JNum(Status(kind))
      && body["message"] == JStr(message)
      && body["path"] == JStr(request.url)
      && Serialized(body) == body
  {
    var result := map["message" := JStr(message)];
    assert ResultOf(FromAbort(kind, message, stack)) == result;
    assert result.Keys == {"message"};
  }

  /** Any other error reaches the client as a 500 with its message: the
   *  errCode the filter sets to undefined is not sent at all. */
  lemma PlainErrorResponse(message: string, stack: Option<string>, request: Request, timestamp: string)
    ensures var e := PlainError(message, stack);
      var sent := Serialized(ResponseBody(StatusOf(e), timestamp, request, ResultOf(e)));
      && sent.Keys == {"statusCode", "timestamp", "path", "message"}
      && sent["statusCode"] == JNum(InternalServerError)
      && sent["message"] == JStr(message)
      && "errCode" in ResultOf(e) && "errCode" !in sent
  {
    var e := PlainError(message, stack);
    var body := ResponseBody(StatusOf(e), timestamp, request, ResultOf(e));
    assert body.Keys == {"statusCode", "timestamp", "path", "message", "errCode"};
    assert body["errCode"] == JUndefined;
  }

  /** An abort of a use case is logged as an error exactly when it is the 500,
   *  with a null errCode and the abort's message. */
  lemma AbortLog(kind: AbortKind, message: string, stack: Option<string>, request: Request)
    ensures var e := FromAbort(kind, message, stack);
      var line := FilterLog(request.path, request.verb, ResultOf(e), StatusOf(e), e.stack);
      && (line.level == Level.Error <==> kind == InternalServerErrorException)
      && line.message == Plain("method=" + request.verb + " status=" + IntToString(Status(kind))
                               + " errCode=" + "null" + " message=" + message)
  {
    var e := FromAbort(kind, message, stack);
    var result := map["message" := JStr(message)];
    assert ResultOf(e) == result;
    assert StatusOf(e) == Status(kind);
    assert Interpolate(Field(result, "errCode")) == "null";
    assert Interpolate(Field(result, "message")) == message;
  }

  /** The response the filter writes to. */
  class HttpResponse {
    var statusCode: Option<int>
    var body: Option<JsonObject>

    constructor ()
      ensures statusCode == None && body == None
    {
      statusCode, body := None, None;
    }

    /** `response.status(status).json(data)`: the body is what reaches the client. */
    method Send(status: int, data: JsonObject)
      modifies this
      ensures statusCode == Some(status) && body == Some(Serialized(data))
    {
      statusCode, body := Some(status), Some(Serialized(data));
    }
  }

  class HttpExceptionFilter {
    const logger: Logger

    constructor (logger: Logger)
      ensures this.logger == logger
    {
      this.logger := logger;
    }

    /** catch, with the clock's ISO timestamp as a parameter. */
    method Catch(exception: Caught, request: Request, timestamp: string, response: HttpResponse)
      modifies response, logger.trace
      ensures response.statusCode == Some(StatusOf(exception))
      ensures response.body == Some(Serialized(ResponseBody(StatusOf(exception), timestamp, request, ResultOf(exception))))
      ensures logger.trace.events == old(logger.trace.events)
        + [Logged(FilterLog(request.path, request.verb, ResultOf(exception), StatusOf(exception), exception.stack))]
    {
      var status := InternalServerError;
      var result: JsonObject;
      if exception.HttpException? {
        status := exception.status;
        result := exception.response;
      } else {
        result := map["message" := JStr(exception.message), "errCode" := JUndefined];
      }
      var responseData := map["statusCode" := JNum(status), "timestamp" := JStr(timestamp), "path" := JStr(request.url)] + result;
      LogMessage(request.path, request.verb, result, status, exception);
      response.Send(status, responseData);
    }

    method LogMessage(path: string, verb: string, message: JsonObject, status: int, exception: Caught)
      modifies logger.trace
      ensures logger.trace.events == old(logger.trace.events)
        + [Logged(FilterLog(path, verb, message, status, exception.stack))]
    {
      var detail := DetailLine(verb, status, message);
      if status == InternalServerError {
        logger.Error(EndRequest(path), Plain(detail), exception.stack);
        return;
      }
      logger.Warn(EndRequest(path), Plain(detail));
    }
  }
}
