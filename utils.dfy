/** The boundary helpers of src/utils/index.ts: `formatErrorResponse`, the
    projection of a record to a response body, and `handleError`, which turns
    whatever was thrown into a record and attaches a request id to it. */
module Utils {
  import opened Wrappers
  import opened Base
  import AuthErrors
  import SystemErrors
  import BusinessErrors

  /** The `error` part of a response body. */
  datatype ErrorBody = ErrorBody(
    code: string,
    message: string,
    timestamp: string,
    requestId: Option<string>,
    data: Option<Json>)

  /** The object `formatErrorResponse` returns. */
  datatype ErrorResponse = ErrorResponse(success: bool, error: ErrorBody)

  /** `formatErrorResponse`: a failure body holding the record's code,
      message, timestamp, request id and payload, and nothing else. */
  function FormatErrorResponse(e: ErrorRecord): (r: ErrorResponse)
    reads e
    ensures !r.success
    ensures r.error.code == e.code && r.error.message == e.message
  {
    ErrorResponse(false, ErrorBody(e.code, e.message, e.timestamp, e.requestId, e.data))
  }

  /** Two records format alike exactly when they agree on code, message,
      timestamp, request id and payload: those fields are all copied, and
      the status and class name are left out. */
  lemma FormatDeterminedByFiveFields(a: ErrorRecord, b: ErrorRecord)
    ensures FormatErrorResponse(a) == FormatErrorResponse(b)
        <==> && a.code == b.code && a.message == b.message && a.timestamp == b.timestamp
             && a.requestId == b.requestId && a.data == b.data
  {
  }

  /** The body is the part of `toJSON` without `name` and `statusCode`. */
  lemma FormatAgreesWithToJson(e: ErrorRecord)
    ensures var j := e.ToJson();
      FormatErrorResponse(e).error == ErrorBody(j.code, j.message, j.timestamp, j.requestId, j.data)
  {
  }

  /** `formatErrorResponse` only reads the record: between two states in
      which the record is unchanged, it gives equal results. */
  twostate lemma FormatStable(e: ErrorRecord)
    requires unchanged(e)
    ensures FormatErrorResponse(e) == old(FormatErrorResponse(e))
  {
  }

  /** What `handleError` may be given: one of the records, a standard `Error`
      (only its message matters), or any other value. */
  datatype Thrown = Record(error: ErrorRecord) | Failure(message: string) | Other(value: Json)

  /** The message literal `handleError` falls back on. */
  const UnknownErrorMessage: string := "系统内部错误"

  /** The fallback is `InternalError`'s own default message. */
  lemma UnknownErrorMessageIsInternalDefault()
    ensures UnknownErrorMessage == SystemErrors.Info(SystemErrors.Internal).defaultMessage
  {
  }

  /** `error.message || "系统内部错误"`: the message of a standard `Error`, or
      the fallback when that message is empty. Never empty. */
  function FailureMessage(message: string): (m: string)
    ensures m != ""
    ensures message != "" ==> m == message
    ensures message == "" ==> m == UnknownErrorMessage
  {
    if message != "" then message else UnknownErrorMessage
  }

  /** The request-id rule `if (requestId && !error.requestId) error.requestId =
      requestId`: a non-empty argument is written only over an absent or empty
      id, so an id once set to a non-empty value is never overwritten. */
  function Enrich(current: Option<string>, requestId: Option<string>): (r: Option<string>)
    ensures Truthy(current) ==> r == current
    ensures !Truthy(requestId) ==> r == current
    ensures Truthy(requestId) && !Truthy(current) ==> r == requestId
  {
    if Truthy(requestId) && !Truthy(current) then requestId else current
  }

  /** On a fresh `InternalError`, `if (requestId) e.requestId = requestId` is
      the same rule applied to an unset id. */
  function AttachToFresh(requestId: Option<string>): (r: Option<string>)
    ensures r == Enrich(None, requestId)
    ensures Truthy(requestId) <==> r.Some?
  {
    if Truthy(requestId) then requestId else None
  }

  /** The id left after `handleError` has seen the same record at a series of
      boundaries, one request id each. */
  function EnrichAll(current: Option<string>, requestIds: seq<Option<string>>): Option<string>
    decreases |requestIds|
  {
    if requestIds == [] then current else EnrichAll(Enrich(current, requestIds[0]), requestIds[1..])
  }

  /** The first non-empty id of `ids`, or `otherwise` when there is none. */
  function FirstTruthy(ids: seq<Option<string>>, otherwise: Option<string>): Option<string>
    decreases |ids|
  {
    if ids == [] then otherwise
    else if Truthy(ids[0]) then ids[0]
    else FirstTruthy(ids[1..], otherwise)
  }

  /** Once non-empty, the id survives every later call. */
  lemma {:induction false} EnrichAllKeepsSetId(current: Option<string>, requestIds: seq<Option<string>>)
    requires Truthy(current)
    ensures EnrichAll(current, requestIds) == current
    decreases |requestIds|
  {
    if requestIds != [] {
      EnrichAllKeepsSetId(current, requestIds[1..]);
    }
  }

  /** Set-once over any series of calls: the record ends with its own id if
      that was non-empty, else with the first non-empty id it was offered,
      else with the id it started with. */
  lemma {:induction false} EnrichAllIsFirstTruthy(current: Option<string>, requestIds: seq<Option<string>>)
    ensures EnrichAll(current, requestIds) == FirstTruthy([current] + requestIds, current)
    decreases |requestIds|
  {
    if Truthy(current) {
      EnrichAllKeepsSetId(current, requestIds);
    } else if requestIds != [] {
      var rest := requestIds[1..];
      assert ([current] + requestIds)[1..] == requestIds;
      if Truthy(requestIds[0]) {
        EnrichAllKeepsSetId(requestIds[0], rest);
      } else {
        EnrichAllIsFirstTruthy(current, rest);
        assert ([current] + rest)[1..] == rest;
      }
    }
  }

  /** `handleError(error, requestId)`, returning the record it would throw.
      A record is passed through as the same object, with only its request id
      possibly written; a standard `Error` becomes a new `InternalError`
      carrying its message (or the fallback when that is empty); anything else
      becomes a new `InternalError` with the fallback message, the value never
      echoed. The new records get the request id when it is non-empty.
      `timestamp` stands for the clock reading of a new record. */
  method HandleError(thrown: Thrown, requestId: Option<string>, timestamp: string)
    returns (e: ErrorRecord)
    modifies if thrown.Record? then {thrown.error} else {}
    ensures thrown.Record? ==> e == thrown.error
    ensures thrown.Record? ==> e.requestId == Enrich(old(thrown.error.requestId), requestId)
    ensures thrown.Failure? ==>
      && fresh(e)
      && e.Fields() == Build(SystemErrors.Info(SystemErrors.Internal), Some(FailureMessage(thrown.message)), None, timestamp)
      && e.requestId == AttachToFresh(requestId)
    ensures thrown.Other? ==>
      && fresh(e)
      && e.Fields() == Build(SystemErrors.Info(SystemErrors.Internal), Some(UnknownErrorMessage), None, timestamp)
      && e.requestId == AttachToFresh(requestId)
  {
    match thrown
    case Record(error) =>
      if Truthy(requestId) && !Truthy(error.requestId) {
        error.requestId := requestId;
      }
      e := error;
    case Failure(message) =>
      e := SystemErrors.New(SystemErrors.Internal, Some(FailureMessage(message)), None, timestamp);
      if Truthy(requestId) {
        e.requestId := requestId;
      }
    case Other(_) =>
      e := SystemErrors.New(SystemErrors.Internal, Some(UnknownErrorMessage), None, timestamp);
      if Truthy(requestId) {
        e.requestId := requestId;
      }
  }

  /** The same record passed to `handleError` at a series of boundaries, one
      request id each: its id ends as `EnrichAll` of the ids, so by
      `EnrichAllIsFirstTruthy` it is set once and then kept. */
  method HandleRepeatedly(e: ErrorRecord, requestIds: seq<Option<string>>, timestamp: string)
    modifies e
    ensures e.requestId == EnrichAll(old(e.requestId), requestIds)
  {
    var i := 0;
    while i < |requestIds|
      invariant 0 <= i <= |requestIds|
      invariant EnrichAll(e.requestId, requestIds[i..]) == EnrichAll(old(e.requestId), requestIds)
    {
      assert requestIds[i..][1..] == requestIds[i + 1..];
      var r := HandleError(Record(e), requestIds[i], timestamp);
      i := i + 1;
    }
  }

  /** A `ValidationError` handled with "req-456" takes that id, and keeps it
      when it is handled again with "req-2". */
  method SetOnceScenario(timestamp: string) returns (first: Option<string>, second: Option<string>)
    ensures first == Some("req-456") && second == Some("req-456")
  {
    var e := BusinessErrors.New(BusinessErrors.Validation, Some("验证失败"), None, timestamp);
    var r := HandleError(Record(e), Some("req-456"), timestamp);
    first := r.requestId;
    r := HandleError(Record(e), Some("req-2"), timestamp);
    second := r.requestId;
  }

  /** A standard `Error("测试错误")` handled with "req-123" becomes an
      `InternalError` with that message, status 500 and that id; the unknown
      value "unknown error" becomes one with the fallback message. */
  method NormalizeScenario(timestamp: string)
    returns (fromFailure: ErrorFields, failureId: Option<string>, fromOther: ErrorFields)
    ensures fromFailure.code == "INTERNAL_ERROR" && fromFailure.statusCode == 500
    ensures fromFailure.message == "测试错误" && failureId == Some("req-123")
    ensures fromOther.code == "INTERNAL_ERROR" && fromOther.message == "系统内部错误"
  {
    var a := HandleError(Failure("测试错误"), Some("req-123"), timestamp);
    var b := HandleError(Other(Str("unknown error")), None, timestamp);
    fromFailure, failureId, fromOther := a.Fields(), a.requestId, b.Fields();
  }

  /** A `ResourceNotFoundError` with a payload and a request id formats as a
      failure body with those values; an `InvalidTokenError` without a payload
      formats with no payload. */
  method FormatScenario(timestamp: string) returns (full: ErrorResponse, bare: ErrorResponse)
    ensures full == ErrorResponse(false, ErrorBody("RESOURCE_NOT_FOUND", "文章不存在", timestamp,
                                                   Some("req-789"), Some(Obj([("articleId", Num(123))]))))
    ensures !bare.success && bare.error.code == "INVALID_TOKEN" && bare.error.data == None
  {
    var e := BusinessErrors.New(BusinessErrors.ResourceNotFound, Some("文章不存在"), Some(Obj([("articleId", Num(123))])), timestamp);
    e.requestId := Some("req-789");
    full := FormatErrorResponse(e);
    var t := AuthErrors.New(AuthErrors.InvalidToken, None, None, timestamp);
    bare := FormatErrorResponse(t);
  }
}
