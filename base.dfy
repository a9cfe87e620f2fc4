/** The shared error record of src/types/base.ts: the HTTP status codes a kind
    may carry, the record itself with its one writable field `requestId`, its
    JSON projection, and the rule by which a kind's constructor fills in the
    record (a defaulted message, a fixed status and code). */
module Base {
  import opened Wrappers

  /** The `HttpStatusCode` enum: the status codes of section 15 of RFC 9110
      that the taxonomy uses, plus 429 from section 4 of RFC 6585. */
  datatype HttpStatusCode =
    | BadRequest | Unauthorized | Forbidden | NotFound | Conflict
    | UnprocessableEntity | TooManyRequests
    | InternalServerError | BadGateway | ServiceUnavailable | GatewayTimeout
  {
    /** The number the enum member stands for. */
    function Value(): (n: int)
      ensures n in StatusValues
      ensures n < 500 <==> !IsServerError()
    {
      match this
      case BadRequest => 400
      case Unauthorized => 401
      case Forbidden => 403
      case NotFound => 404
      case Conflict => 409
      case UnprocessableEntity => 422
      case TooManyRequests => 429
      case InternalServerError => 500
      case BadGateway => 502
      case ServiceUnavailable => 503
      case GatewayTimeout => 504
    }

    /** The 5xx members of the enum. */
    predicate IsServerError() {
      InternalServerError? || BadGateway? || ServiceUnavailable? || GatewayTimeout?
    }
  }

  /** Exactly the numbers the enum defines. */
  const StatusValues: set<int> := {400, 401, 403, 404, 409, 422, 429, 500, 502, 503, 504}

  /** The enum member with value `n`, if there is one (the reverse mapping of
      a numeric TypeScript enum). */
  function FromValue(n: int): (r: Option<HttpStatusCode>)
    ensures r.Some? <==> n in StatusValues
    ensures r.Some? ==> r.value.Value() == n
  {
    if n == 400 then Some(BadRequest)
    else if n == 401 then Some(Unauthorized)
    else if n == 403 then Some(Forbidden)
    else if n == 404 then Some(NotFound)
    else if n == 409 then Some(Conflict)
    else if n == 422 then Some(UnprocessableEntity)
    else if n == 429 then Some(TooManyRequests)
    else if n == 500 then Some(InternalServerError)
    else if n == 502 then Some(BadGateway)
    else if n == 503 then Some(ServiceUnavailable)
    else if n == 504 then Some(GatewayTimeout)
    else None
  }

  /** Reading a member's value back gives the member: with the contracts of
      `Value` and `FromValue`, the enum is a bijection onto `StatusValues`. */
  lemma ValueRoundTrip(s: HttpStatusCode)
    ensures FromValue(s.Value()) == Some(s)
  {
  }

  /** No two enum members share a number. */
  lemma ValueInjective(a: HttpStatusCode, b: HttpStatusCode)
    ensures a.Value() == b.Value() <==> a == b
  {
  }

  /** The opaque payload a record may carry (`data?: any`); the model never
      looks inside it. */
  datatype Json =
    | Null
    | Bool(b: bool)
    | Num(n: int)
    | Str(s: string)
    | Arr(items: seq<Json>)
    | Obj(members: seq<(string, Json)>)

  /** JavaScript truthiness of an optional string: present and non-empty. */
  predicate Truthy(s: Option<string>) {
    s.Some? && s.value != ""
  }

  /** A JavaScript default parameter `message = fallback`: only an omitted
      (undefined) argument is replaced; an explicit string, even "", is kept. */
  function Defaulted(message: Option<string>, fallback: string): (m: string)
    ensures message.Some? ==> m == message.value
    ensures message.None? ==> m == fallback
  {
    match message
    case Some(v) => v
    case None => fallback
  }

  /** What a concrete kind fixes: its class name (`this.constructor.name`),
      status, machine code and default message. */
  datatype KindInfo = KindInfo(name: string, status: HttpStatusCode, code: string, defaultMessage: string)

  /** The fields of a record that are fixed at construction. */
  datatype ErrorFields = ErrorFields(
    name: string,
    message: string,
    statusCode: int,
    code: string,
    timestamp: string,
    data: Option<Json>)

  /** The object `toJSON` returns. */
  datatype ErrorJson = ErrorJson(
    name: string,
    code: string,
    message: string,
    statusCode: int,
    timestamp: string,
    requestId: Option<string>,
    data: Option<Json>)

  /** The fields a kind's constructor `(message = default, data?)` gives the
      record it builds by calling `super(message, status, code, data)`. */
  function Build(kind: KindInfo, message: Option<string>, data: Option<Json>, timestamp: string): ErrorFields
  {
    ErrorFields(kind.name, Defaulted(message, kind.defaultMessage), kind.status.Value(), kind.code, timestamp, data)
  }

  /** Called with no arguments, a kind yields its own status, code, name and
      default message, and no payload. */
  lemma BuildWithoutArguments(kind: KindInfo, timestamp: string)
    ensures var f := Build(kind, None, None, timestamp);
      && f.name == kind.name && f.statusCode == kind.status.Value() && f.code == kind.code
      && f.message == kind.defaultMessage && f.data == None && f.timestamp == timestamp
  {
  }

  /** A supplied message and payload replace only the message and the payload;
      the name, status, code and timestamp stay those of the kind. An explicit
      empty message is kept too. */
  lemma BuildOverridesOnlyMessageAndData(kind: KindInfo, message: string, data: Option<Json>, timestamp: string)
    ensures Build(kind, Some(message), data, timestamp)
         == Build(kind, None, None, timestamp).(message := message, data := data)
  {
  }

  /** Two kinds build equal records from the same arguments exactly when they
      agree on name, status and code, and, if the message is omitted, on the
      default message: nothing else about a kind is observable. */
  lemma BuildEqualIff(k1: KindInfo, k2: KindInfo, message: Option<string>, data: Option<Json>, timestamp: string)
    ensures Build(k1, message, data, timestamp) == Build(k2, message, data, timestamp)
        <==> && k1.name == k2.name && k1.status == k2.status && k1.code == k2.code
             && (message.None? ==> k1.defaultMessage == k2.defaultMessage)
  {
  }

  /** `BaseError`. Every field but `requestId` is readonly, so it is a `const`;
      `requestId` is public and writable. */
  class ErrorRecord {
    const name: string
    const message: string
    const statusCode: int
    const code: string
    const timestamp: string
    const data: Option<Json>
    var requestId: Option<string>

    /** The constructor stores its arguments verbatim and leaves `requestId`
        unset. `name` stands for `this.constructor.name` and `timestamp` for
        the clock reading taken at construction. */
    constructor (name: string, message: string, statusCode: int, code: string, data: Option<Json>, timestamp: string)
      ensures Fields() == ErrorFields(name, message, statusCode, code, timestamp, data)
      ensures requestId == None
    {
      this.name := name;
      this.message := message;
      this.statusCode := statusCode;
      this.code := code;
      this.timestamp := timestamp;
      this.data := data;
      this.requestId := None;
    }

    /** The fields fixed at construction. */
    function Fields(): ErrorFields {
      ErrorFields(name, message, statusCode, code, timestamp, data)
    }

    /** `toJSON`. */
    function ToJson(): ErrorJson
      reads this
    {
      ErrorJson(name, code, message, statusCode, timestamp, requestId, data)
    }
  }

  /** `toJSON` loses nothing: two records have equal JSON exactly when all
      their fields, `requestId` included, are equal. */
  lemma ToJsonFaithful(a: ErrorRecord, b: ErrorRecord)
    ensures a.ToJson() == b.ToJson() <==> a.Fields() == b.Fields() && a.requestId == b.requestId
  {
  }

  /** The constructor of a concrete kind: `super(message, status, code, data)`
      with the kind's own status and code and its defaulted message. */
  method Construct(kind: KindInfo, message: Option<string>, data: Option<Json>, timestamp: string)
    returns (e: ErrorRecord)
    ensures fresh(e)
    ensures e.Fields() == Build(kind, message, data, timestamp)
    ensures e.requestId == None
  {
    e := new ErrorRecord(kind.name, Defaulted(message, kind.defaultMessage), kind.status.Value(), kind.code, data, timestamp);
  }

  /** The record of the base class itself, built with a message, status, code
      and payload, then given a request id, projects to exactly those values. */
  method ToJsonScenario(timestamp: string) returns (j: ErrorJson)
    ensures j == ErrorJson("BaseError", "TEST_ERROR", "测试错误", 400, timestamp,
                           Some("req-123"), Some(Obj([("test", Bool(true))])))
  {
    var e := new ErrorRecord("BaseError", "测试错误", 400, "TEST_ERROR", Some(Obj([("test", Bool(true))])), timestamp);
    e.requestId := Some("req-123");
    j := e.ToJson();
  }
}
