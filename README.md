# elysia-unified-errors, modelled in Dafny

The library gives a web framework one error taxonomy. Every error is a
`BaseError` record carrying a message, an HTTP status, a machine code, a
creation timestamp, an optional opaque payload and a writable `requestId`.
Twenty-three concrete kinds each fix a (status, code, default message)
triple: five for authentication, seven for business rules, five for system
failures and six examples of caller-defined kinds. `createCustomError` mints
further kinds from a caller's triple. Two helpers sit at the HTTP boundary.
`formatErrorResponse` projects a record to a `{ success: false, error }` body.
`handleError` turns anything thrown into a record and attaches a request id
to it, without ever overwriting one that is already set.

Layout, one module per source file:

- `wrappers.dfy` (`Wrappers`): `Option`, standing for a JavaScript value that may be `undefined`.
- `base.dfy` (`Base`): the `HttpStatusCode` enum, the `ErrorRecord` class (`BaseError`) with its constructor and `toJSON`, and `KindInfo`/`Build`/`Construct`. These describe what every concrete kind's constructor does.
- `auth.dfy`, `business.dfy`, `system.dfy` (`AuthErrors`, `BusinessErrors`, `SystemErrors`): one datatype of kinds per file. Each has an `Info` table and a `New` constructor.
- `custom.dfy` (`CustomErrors`): the `CustomError` pass-through, the six example kinds and the `createCustomError` factory.
- `utils.dfy` (`Utils`): `FormatErrorResponse`, `HandleError` and the set-once request-id rule `Enrich`.

Modelling choices:

- The readonly fields, and `name` and `message`, which nothing writes after construction, are `const`. Only `requestId` is a `var`, so "nothing else ever changes" holds by construction. A method that writes `requestId` says so in its `modifies` clause.
- `this.constructor.name` becomes an explicit `name` carried by each kind. The clock reading `new Date().toISOString()` becomes a `timestamp` parameter.
- A message argument is an `Option<string>`. `None` is an omitted or `undefined` argument, the only case a JavaScript default parameter replaces. An explicit `""` is kept.
- `handleError` always throws. Here it returns the record it would throw.

Points of the code's behaviour worth noting:

- The default messages are the source's Chinese strings.
- A standard `Error` with an empty message gets the fallback message, because the code uses `error.message || …`.
- A record whose `requestId` is the empty string counts as unset and is overwritten. An empty request-id argument is never written.

## Model

| member | source | states |
|---|---|---|
| `Base.HttpStatusCode.Value` | src/types/base.ts:4-16 | every enum member's value is one of 400, 401, 403, 404, 409, 422, 429, 500, 502, 503, 504, and it is below 500 exactly for the non-5xx members |
| `Base.FromValue` | src/types/base.ts:4-16 | a number names an enum member exactly when it is one of those eleven values, and then that member's value is the number |
| `Base.ValueRoundTrip` | src/types/base.ts:4-16 | reading a member's value back yields the member, so the enum is a bijection onto the eleven values |
| `Base.ValueInjective` | src/types/base.ts:4-16 | two enum members have the same value exactly when they are the same member |
| `Base.Defaulted` | src/errors/auth/index.ts:7 | a default parameter replaces only an omitted message; a supplied one, even empty, is kept |
| `Base.BuildWithoutArguments` | src/types/base.ts:28-40 | a kind constructed with no arguments has the kind's name, status, code and default message, no payload, and the given timestamp |
| `Base.BuildOverridesOnlyMessageAndData` | src/errors/auth/index.ts:7-8 | a supplied message and payload change only the message and payload; name, status, code and timestamp stay the kind's |
| `Base.BuildEqualIff` | src/types/base.ts:28-40 | two kinds build equal records from the same arguments exactly when they agree on name, status and code (and on the default message when none is supplied) |
| `Base.ErrorRecord.constructor` | src/types/base.ts:28-40 | the constructor stores name, message, status, code, timestamp and payload verbatim, and `requestId` starts unset |
| `Base.ToJsonFaithful` | src/types/base.ts:42-52 | two records have equal `toJSON` results exactly when all their fields, `requestId` included, are equal |
| `Base.Construct` | src/errors/auth/index.ts:6-10 | a concrete kind's constructor yields a fresh record with the kind's fields and the defaulted message, and no request id |
| `Base.ToJsonScenario` | test/index.test.ts:49-62 | a base record given request id "req-123" projects to exactly name, code, message, status, timestamp, that id and its payload |
| `AuthErrors.Info` | src/errors/auth/index.ts:6-46 | every authentication kind answers 401 except `UserNotFoundError`, which answers 404 |
| `AuthErrors.CodesDistinct` | src/errors/auth/index.ts:6-46 | no two authentication kinds share a code |
| `AuthErrors.New` | src/errors/auth/index.ts:6-46 | each authentication constructor yields a fresh record built from its own triple, with no request id |
| `AuthErrors.InvalidTokenDefaults` | src/errors/auth/index.ts:6-10 | `InvalidTokenError()` has name "InvalidTokenError", status 401, code "INVALID_TOKEN", message "令牌无效" and no payload |
| `BusinessErrors.Info` | src/errors/business/index.ts:6-74 | every business kind is a client error with its own status; 422 is shared by exactly `QuotaExceededError` and `ValidationError`; 404, 403, 400, 409 and 429 go to the other five |
| `BusinessErrors.CodesDistinct` | src/errors/business/index.ts:6-74 | no two business kinds share a code, including the two that share 422 |
| `BusinessErrors.New` | src/errors/business/index.ts:6-74 | each business constructor yields a fresh record built from its own triple, with no request id |
| `BusinessErrors.ValidationKeepsMessageAndPayload` | src/errors/business/index.ts:65-74 | `ValidationError(m, {field: "email"})` keeps message and payload verbatim, with status 422 and code "VALIDATION_ERROR" |
| `SystemErrors.Info` | src/errors/system/index.ts:6-46 | every system kind is a server error; 500 is shared by exactly `InternalError` and `ConfigurationError`; 502, 504 and 503 go to the other three |
| `SystemErrors.CodesDistinct` | src/errors/system/index.ts:6-46 | no two system kinds share a code, including the two that share 500 |
| `SystemErrors.New` | src/errors/system/index.ts:6-46 | each system constructor yields a fresh record built from its own triple, with no request id |
| `SystemErrors.InternalDefaults` | src/errors/system/index.ts:6-10 | `InternalError()` has status 500, code "INTERNAL_ERROR" and message "系统内部错误" |
| `SystemErrors.NetworkMessageOverride` | src/errors/system/index.ts:15-19 | `NetworkError(m)` has message m, status 502 and code "NETWORK_ERROR" |
| `CustomErrors.NewCustomError` | src/errors/custom/index.ts:7-16 | `CustomError` passes message, status, code and payload unchanged to the base record |
| `CustomErrors.Info` | src/errors/custom/index.ts:21-75 | the example kinds answer 409 for an out-of-stock product, 404 for a missing file and 422 for the other four |
| `CustomErrors.CodesDistinct` | src/errors/custom/index.ts:21-75 | no two example kinds share a code |
| `CustomErrors.New` | src/errors/custom/index.ts:21-75 | each example constructor yields, through `CustomError`, a fresh record built from its own triple |
| `CustomErrors.FactoryKindFields` | src/errors/custom/index.ts:84-94 | a factory-made kind has the factory's code and status; its message is the supplied one or else the factory's default; its payload is the supplied one |
| `CustomErrors.FactoriesAgreeIffSameTriple` | src/errors/custom/index.ts:84-94 | with no uniqueness check, two factory kinds build equal records exactly when their triples agree; different codes or statuses always differ |
| `CustomErrors.TwoFactoriesScenario` | test/index.test.ts:529-553 | kinds from two factories carry their own codes and statuses ("ORDER_ERROR"/422, "DATABASE_ERROR"/500) |
| `Utils.FormatErrorResponse` | src/utils/index.ts:7-18 | the response always has `success == false` and copies the record's code and message |
| `Utils.FormatDeterminedByFiveFields` | src/utils/index.ts:7-18 | two records format alike exactly when they agree on code, message, timestamp, request id and payload; status and name are not included |
| `Utils.FormatAgreesWithToJson` | src/utils/index.ts:7-18 | the response body is `toJSON`'s result without name and status, so an absent request id or payload stays absent |
| `Utils.FormatStable` | src/utils/index.ts:7-18 | on an unmodified record, two calls give equal results |
| `Utils.UnknownErrorMessageIsInternalDefault` | src/utils/index.ts:44 | the fallback message of `handleError` is `InternalError`'s default message |
| `Utils.FailureMessage` | src/utils/index.ts:35 | the message given to the new `InternalError` is never empty: it is the thrown message if non-empty, else the fallback |
| `Utils.Enrich` | src/utils/index.ts:26-28 | a non-empty id already on the record is kept; an empty or absent argument changes nothing; otherwise the argument is written |
| `Utils.AttachToFresh` | src/utils/index.ts:36-38 | on a new record, the id is attached exactly when it is non-empty, which is the set-once rule applied to an unset id |
| `Utils.EnrichAllKeepsSetId` | src/utils/index.ts:26-28 | once a record's id is non-empty, any number of further `handleError` calls leave it unchanged |
| `Utils.EnrichAllIsFirstTruthy` | src/utils/index.ts:26-28 | after a series of `handleError` calls, the id is the record's own non-empty id, else the first non-empty id offered, else the id it started with |
| `Utils.HandleError` | src/utils/index.ts:23-49 | a record comes back as the same object with only its id set by the set-once rule; a standard `Error` becomes a fresh `InternalError` with its message or the fallback; any other value becomes one with the fallback message; new records get the request id only when it is non-empty |
| `Utils.HandleRepeatedly` | src/utils/index.ts:25-29 | after the same record is passed to `handleError` with a series of ids, its id is `EnrichAll` of those ids, hence set once and then kept |
| `Utils.SetOnceScenario` | src/utils/index.ts:26-28 | a `ValidationError` handled with "req-456" takes that id and keeps it when handled again with "req-2" |
| `Utils.NormalizeScenario` | test/index.test.ts:228-270 | `Error("测试错误")` with "req-123" becomes an `InternalError` with that message, status 500 and that id; the unknown value "unknown error" gets the fallback message |
| `Utils.FormatScenario` | test/index.test.ts:287-313 | a `ResourceNotFoundError` with payload and request id formats to exactly those values; an `InvalidTokenError` without payload formats with none |

## Left out

- `console.error` diagnostics in `handleError` are left out. They are logging only.
- The clock is not modelled. The timestamp is a parameter, and its ISO-8601 format is not modelled.
- Throwing is not modelled: `HandleError` returns the record it would throw. The `never` return type and stack traces are not modelled.
- `instanceof` and the prototype chain are replaced by the `Thrown` datatype (record, standard `Error`, other value) and an explicit `name`. A JavaScript object that is an `Error` only by prototype manipulation is not modelled.
- Class identity of factory-made kinds is not modelled: two factory calls return distinct classes, which only `instanceof` and `constructor` can tell apart. The model keeps only the records' field values. Their `name` is the empty string, the name JavaScript gives an anonymous class expression.
- `message` and `name` are `const`. In JavaScript both are writable `Error` properties (`name` is assigned once in the constructor), but nothing in the library writes them afterwards.
- The payload `data?: any` is an opaque `Json` value that is never inspected. Its numbers are integers in the model.
- `JSON.stringify` dropping `undefined` keys is not modelled. An absent `requestId` or `data` is `None` in the projected datatypes.
- Direct writes to the public `requestId` field by callers are allowed, as in the source, and are not constrained. Only `handleError` follows the set-once rule.
- Concurrent access to one record is not modelled. The source is single-threaded.
- example/index.ts is not part of this model. It is a server, routes and simulated data over a framework.
- src/index.ts is not part of this model. It only re-exports.
