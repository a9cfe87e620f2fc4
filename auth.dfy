/** The authentication kinds of src/errors/auth/index.ts. */
module AuthErrors {
  import opened Wrappers
  import opened Base

  datatype AuthKind = InvalidToken | ExpiredToken | MissingToken | InvalidCredentials | UserNotFound

  /** Each kind's class name, status, code and default message. Every
      authentication kind answers 401 except `UserNotFoundError`, which
      answers 404. */
  function Info(k: AuthKind): (i: KindInfo)
    ensures i.status == (if k == UserNotFound then NotFound else Unauthorized)
  {
    match k
    case InvalidToken => KindInfo("InvalidTokenError", Unauthorized, "INVALID_TOKEN", "令牌无效")
    case ExpiredToken => KindInfo("ExpiredTokenError", Unauthorized, "EXPIRED_TOKEN", "令牌已过期")
    case MissingToken => KindInfo("MissingTokenError", Unauthorized, "MISSING_TOKEN", "缺少访问令牌")
    case InvalidCredentials => KindInfo("InvalidCredentialsError", Unauthorized, "INVALID_CREDENTIALS", "用户名或密码错误")
    case UserNotFound => KindInfo("UserNotFoundError", NotFound, "USER_NOT_FOUND", "用户不存在")
  }

  /** The code identifies the kind: no two authentication kinds share one. */
  lemma CodesDistinct(a: AuthKind, b: AuthKind)
    ensures Info(a).code == Info(b).code <==> a == b
  {
  }

  /** `new InvalidTokenError(message?, data?)` and its four siblings. */
  method New(k: AuthKind, message: Option<string>, data: Option<Json>, timestamp: string)
    returns (e: ErrorRecord)
    ensures fresh(e)
    ensures e.Fields() == Build(Info(k), message, data, timestamp)
    ensures e.requestId == None
  {
    e := Construct(Info(k), message, data, timestamp);
  }

  /** `new InvalidTokenError()`: status 401, code "INVALID_TOKEN", the default
      message and the class's own name. */
  lemma InvalidTokenDefaults(timestamp: string)
    ensures Build(Info(InvalidToken), None, None, timestamp)
         == ErrorFields("InvalidTokenError", "令牌无效", 401, "INVALID_TOKEN", timestamp, None)
  {
  }
}
