/** The system and infrastructure kinds of src/errors/system/index.ts. */
module SystemErrors {
  import opened Wrappers
  import opened Base

  datatype SystemKind = Internal | Network | Timeout | ServiceUnavailableKind | Configuration

  /** Each kind's class name, status, code and default message. All are server
      errors; `InternalError` and `ConfigurationError` share 500. */
  function Info(k: SystemKind): (i: KindInfo)
    ensures i.status.IsServerError()
    ensures i.status == InternalServerError <==> k == Internal || k == Configuration
    ensures k == Network ==> i.status == BadGateway
    ensures k == Timeout ==> i.status == GatewayTimeout
    ensures k == ServiceUnavailableKind ==> i.status == ServiceUnavailable
  {
    match k
    case Internal => KindInfo("InternalError", InternalServerError, "INTERNAL_ERROR", "系统内部错误")
    case Network => KindInfo("NetworkError", BadGateway, "NETWORK_ERROR", "网络连接错误")
    case Timeout => KindInfo("TimeoutError", GatewayTimeout, "TIMEOUT_ERROR", "请求超时")
    case ServiceUnavailableKind => KindInfo("ServiceUnavailableError", ServiceUnavailable, "SERVICE_UNAVAILABLE", "服务不可用")
    case Configuration => KindInfo("ConfigurationError", InternalServerError, "CONFIGURATION_ERROR", "配置错误")
  }

  /** The code identifies the kind: no two system kinds share one, in
      particular not the two that share status 500. */
  lemma CodesDistinct(a: SystemKind, b: SystemKind)
    ensures Info(a).code == Info(b).code <==> a == b
  {
  }

  /** `new InternalError(message?, data?)` and its four siblings. */
  method New(k: SystemKind, message: Option<string>, data: Option<Json>, timestamp: string)
    returns (e: ErrorRecord)
    ensures fresh(e)
    ensures e.Fields() == Build(Info(k), message, data, timestamp)
    ensures e.requestId == None
  {
    e := Construct(Info(k), message, data, timestamp);
  }

  /** `new InternalError()`: status 500, code "INTERNAL_ERROR" and the default
      message. */
  lemma InternalDefaults(timestamp: string)
    ensures Build(Info(Internal), None, None, timestamp)
         == ErrorFields("InternalError", "系统内部错误", 500, "INTERNAL_ERROR", timestamp, None)
  {
  }

  /** `new NetworkError(m)`: the message replaces the default, status 502 and
      code "NETWORK_ERROR" stay. */
  lemma NetworkMessageOverride(message: string, timestamp: string)
    ensures Build(Info(Network), Some(message), None, timestamp)
         == ErrorFields("NetworkError", message, 502, "NETWORK_ERROR", timestamp, None)
  {
  }
}
