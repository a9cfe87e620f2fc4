/** The extension point of src/errors/custom/index.ts: the `CustomError`
    pass-through, six example kinds built on it, and the `createCustomError`
    factory that mints a kind from a caller's code, status and message. */
module CustomErrors {
  import opened Wrappers
  import opened Base

  /** The `CustomError` constructor: an abstract class whose constructor hands
      its arguments unchanged to `BaseError`; `name` is the concrete
      subclass's name. Unlike `BaseError`, it types the status as an enum
      member. */
  method NewCustomError(name: string, message: string, status: HttpStatusCode, code: string,
                        data: Option<Json>, timestamp: string)
    returns (e: ErrorRecord)
    ensures fresh(e)
    ensures e.Fields() == ErrorFields(name, message, status.Value(), code, timestamp, data)
    ensures e.requestId == None
  {
    e := new ErrorRecord(name, message, status.Value(), code, data, timestamp);
  }

  datatype ExampleKind =
    | PaymentFailed | InsufficientFunds | ProductOutOfStock
    | InvalidCoupon | FileNotFound | FileTooLarge

  /** Each example kind's class name, status, code and default message: 409
      for an out-of-stock product, 404 for a missing file, 422 for the rest. */
  function Info(k: ExampleKind): (i: KindInfo)
    ensures i.status == (if k == ProductOutOfStock then Conflict
                         else if k == FileNotFound then NotFound
                         else UnprocessableEntity)
  {
    match k
    case PaymentFailed => KindInfo("PaymentFailedError", UnprocessableEntity, "PAYMENT_FAILED", "支付失败")
    case InsufficientFunds => KindInfo("InsufficientFundsError", UnprocessableEntity, "INSUFFICIENT_FUNDS", "余额不足")
    case ProductOutOfStock => KindInfo("ProductOutOfStockError", Conflict, "PRODUCT_OUT_OF_STOCK", "商品库存不足")
    case InvalidCoupon => KindInfo("InvalidCouponError", UnprocessableEntity, "INVALID_COUPON", "优惠券无效或已过期")
    case FileNotFound => KindInfo("FileNotFoundError", NotFound, "FILE_NOT_FOUND", "文件不存在")
    case FileTooLarge => KindInfo("FileTooLargeError", UnprocessableEntity, "FILE_TOO_LARGE", "文件大小超出限制")
  }

  /** The code identifies the example kind. */
  lemma CodesDistinct(a: ExampleKind, b: ExampleKind)
    ensures Info(a).code == Info(b).code <==> a == b
  {
  }

  /** `new PaymentFailedError(message?, data?)` and its five siblings: each
      passes its message, fixed status, fixed code and payload to
      `CustomError`. */
  method New(k: ExampleKind, message: Option<string>, data: Option<Json>, timestamp: string)
    returns (e: ErrorRecord)
    ensures fresh(e)
    ensures e.Fields() == Build(Info(k), message, data, timestamp)
    ensures e.requestId == None
  {
    var i := Info(k);
    e := NewCustomError(i.name, Defaulted(message, i.defaultMessage), i.status, i.code, data, timestamp);
  }

  /** `createCustomError(code, defaultStatusCode, defaultMessage)`: the kind
      of the anonymous class it returns. An anonymous class expression has the
      empty name in JavaScript, so the records it builds carry name "". */
  function CreateCustomError(code: string, defaultStatusCode: HttpStatusCode, defaultMessage: string): KindInfo
  {
    KindInfo("", defaultStatusCode, code, defaultMessage)
  }

  /** A factory-made kind built with no arguments has the factory's code,
      status and message; a supplied message and payload replace only those
      two fields. */
  lemma FactoryKindFields(code: string, status: HttpStatusCode, defaultMessage: string,
                          message: Option<string>, data: Option<Json>, timestamp: string)
    ensures var f := Build(CreateCustomError(code, status, defaultMessage), message, data, timestamp);
      && f.code == code && f.statusCode == status.Value() && f.data == data
      && f.message == (if message.Some? then message.value else defaultMessage)
  {
  }

  /** The factory performs no uniqueness check: two factory-made kinds build
      equal records exactly when their triples agree (the default message only
      matters when the message is omitted). Kinds minted with different codes
      or statuses always build records that tell them apart. */
  lemma FactoriesAgreeIffSameTriple(c1: string, s1: HttpStatusCode, m1: string,
                                    c2: string, s2: HttpStatusCode, m2: string,
                                    message: Option<string>, data: Option<Json>, timestamp: string)
    ensures Build(CreateCustomError(c1, s1, m1), message, data, timestamp)
         == Build(CreateCustomError(c2, s2, m2), message, data, timestamp)
        <==> c1 == c2 && s1 == s2 && (message.None? ==> m1 == m2)
  {
  }

  /** `new OrderError()` and `new DatabaseError()` from two factories carry
      their own codes and statuses. */
  method TwoFactoriesScenario(timestamp: string) returns (order: ErrorFields, db: ErrorFields)
    ensures order.code == "ORDER_ERROR" && order.statusCode == 422
    ensures db.code == "DATABASE_ERROR" && db.statusCode == 500
    ensures order != db
  {
    var orderError := Construct(CreateCustomError("ORDER_ERROR", UnprocessableEntity, "订单处理错误"), None, None, timestamp);
    var dbError := Construct(CreateCustomError("DATABASE_ERROR", InternalServerError, "数据库错误"), None, None, timestamp);
    order, db := orderError.Fields(), dbError.Fields();
  }
}
