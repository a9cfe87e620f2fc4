/** The business-rule kinds of src/errors/business/index.ts. */
module BusinessErrors {
  import opened Wrappers
  import opened Base

  datatype BusinessKind =
    | ResourceNotFound | PermissionDenied | OperationFailed | ResourceConflict
    | QuotaExceeded | RateLimitExceeded | Validation

  /** Each kind's class name, status, code and default message. All are client
      errors; only `QuotaExceededError` and `ValidationError` share a status
      (422). */
  function Info(k: BusinessKind): (i: KindInfo)
    ensures !i.status.IsServerError()
    ensures i.status == UnprocessableEntity <==> k == QuotaExceeded || k == Validation
    ensures k == ResourceNotFound ==> i.status == NotFound
    ensures k == PermissionDenied ==> i.status == Forbidden
    ensures k == OperationFailed ==> i.status == BadRequest
    ensures k == ResourceConflict ==> i.status == Conflict
    ensures k == RateLimitExceeded ==> i.status == TooManyRequests
  {
    match k
    case ResourceNotFound => KindInfo("ResourceNotFoundError", NotFound, "RESOURCE_NOT_FOUND", "资源不存在")
    case PermissionDenied => KindInfo("PermissionDeniedError", Forbidden, "PERMISSION_DENIED", "权限不足")
    case OperationFailed => KindInfo("OperationFailedError", BadRequest, "OPERATION_FAILED", "操作失败")
    case ResourceConflict => KindInfo("ResourceConflictError", Conflict, "RESOURCE_CONFLICT", "资源已存在")
    case QuotaExceeded => KindInfo("QuotaExceededError", UnprocessableEntity, "QUOTA_EXCEEDED", "配额超限")
    case RateLimitExceeded => KindInfo("RateLimitExceededError", TooManyRequests, "RATE_LIMIT_EXCEEDED", "请求频率超限")
    case Validation => KindInfo("ValidationError", UnprocessableEntity, "VALIDATION_ERROR", "数据验证失败")
  }

  /** The code identifies the kind: no two business kinds share one, in
      particular not the two that share status 422. */
  lemma CodesDistinct(a: BusinessKind, b: BusinessKind)
    ensures Info(a).code == Info(b).code <==> a == b
  {
  }

  /** `new ResourceNotFoundError(message?, data?)` and its six siblings. */
  method New(k: BusinessKind, message: Option<string>, data: Option<Json>, timestamp: string)
    returns (e: ErrorRecord)
    ensures fresh(e)
    ensures e.Fields() == Build(Info(k), message, data, timestamp)
    ensures e.requestId == None
  {
    e := Construct(Info(k), message, data, timestamp);
  }

  /** `new ValidationError(m, {field: "email"})` keeps the message and the
      payload verbatim and answers 422 with code "VALIDATION_ERROR". */
  lemma ValidationKeepsMessageAndPayload(message: string, timestamp: string)
    ensures Build(Info(Validation), Some(message), Some(Obj([("field", Str("email"))])), timestamp)
         == ErrorFields("ValidationError", message, 422, "VALIDATION_ERROR", timestamp,
                        Some(Obj([("field", Str("email"))])))
  {
  }
}
