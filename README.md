# Idempotent payment orchestrator — a Dafny model

This project models the core of a small payment service. A client submits a payment with an
`Idempotency-Key` header. The service fingerprints the payload and looks the key up in an
in-memory idempotency ledger:

- a stored record with a different fingerprint is refused with a 409 conflict;
- a stored record with the same fingerprint is replayed verbatim;
- with no record, the service drives the downstream provider through auth, createBeneficiary,
  createQuote and createOrder. createOrder is retried on transient errors, at most three attempts
  in all, with backoff waits of 500 ms and 1000 ms. The service then normalises the answer,
  saves `{response, payloadHash}` under the key and returns the response.

Any failure propagates unchanged, and nothing is saved.

Files and modules:

- `wrappers.dfy` (`Wrappers`): `Option` and `Result`.
- `errors.dfy` (`Errors`): the `AppError` hierarchy as a datatype with a `StatusCode` function.
- `provider.dfy` (`Provider`): the downstream provider as an abstract port. The class `Gateway`
  appends every call and every backoff wait to a `trace`. Its answers are inputs: one function
  per operation, from the moment of the call (the trace length) to a success or a provider error.
- `repository.dfy` (`IdempotencyRepository`): the in-memory repository as a class over a
  `map<string, Record>`, with lemmas on the map-level `Lookup` and `Saved`.
- `middleware.dfy` (`Middleware`): the missing-key check.
- `payments.dfy` (`Payments`): the pure specification functions and the class `PaymentService`.
  - `RetryRun` specifies the retry loop.
  - `Workflow` specifies the four provider steps.
  - `Process` specifies a whole `processPayment` call.
  - `PaymentService.CreateOrderWithRetry` is the loop itself. `PaymentService.ProcessPayment` is
    the sequence of steps. Both are proved equal to those functions.
- `payment_properties.dfy` (`PaymentProperties`): the properties of `RetryRun` and `Process`, and
  a three-call scenario on the stateful service.
- `error_handler.dfy` (`ErrorHandler`): the HTTP error mapping of `src/app.js`.

Abstractions:

- The SHA-256 fingerprint of the JSON payload is the service's `hash` constant, an arbitrary
  function `Payload -> Digest`. Where a property needs "different payload, different hash",
  hash injectivity is an explicit `requires`.
- The clock value of `createdAt` is a parameter.
- Timer waits are recorded as `Wait(ms)` events, not slept.

## Model

| member | source | states |
|---|---|---|
| `Errors.NewAppError` | src/core/errors/AppError.js:1-7 | the base error keeps the message and the status code it was given, and is marked operational |
| `Errors.NewIdempotencyConflictError` | src/core/errors/AppError.js:9-13 | status 409; an omitted message becomes "Idempotency key reused with different payload", a given one is kept |
| `Errors.NewBadRequestError` | src/core/errors/AppError.js:15-19 | status 400, carries the given message |
| `Errors.NewTransientError` | src/core/errors/AppError.js:21-25 | status 503, carries the given message |
| `Errors.SubclassStatusCodesDistinct` | src/core/errors/AppError.js:9-25 | the three subclasses have pairwise different status codes |
| `Provider.Gateway.Auth` | src/infrastructure/providers/MockPaymentProvider.js:7-14 | records an auth call; answers the scripted reply for that moment |
| `Provider.Gateway.CreateBeneficiary` | src/infrastructure/providers/MockPaymentProvider.js:16-22 | records the call with its token and beneficiary; answers the scripted reply |
| `Provider.Gateway.CreateQuote` | src/infrastructure/providers/MockPaymentProvider.js:24-32 | records the call with its token and amount/currency; answers the scripted reply |
| `Provider.Gateway.CreateOrder` | src/infrastructure/providers/MockPaymentProvider.js:34-50 | records the call with its token and quote/beneficiary ids; answers the scripted reply, which may be a transient failure |
| `Provider.Gateway.Sleep` | src/core/services/PaymentService.js:17 | records a backoff wait of the given length and nothing else |
| `IdempotencyRepository.Lookup` | src/infrastructure/repositories/InMemoryIdempotencyRepository.js:5-7 | present exactly when the key is in the store, and then the stored record |
| `IdempotencyRepository.GetAfterSave` | src/infrastructure/repositories/InMemoryIdempotencyRepository.js:5-11 | after `save(k, r, h)`, `get(k)` is `{response: r, payloadHash: h}` |
| `IdempotencyRepository.SaveKeepsOtherKeys` | src/infrastructure/repositories/InMemoryIdempotencyRepository.js:9-11 | a save leaves every other key's entry as it was |
| `IdempotencyRepository.SaveOverwrites` | src/infrastructure/repositories/InMemoryIdempotencyRepository.js:10 | two saves to one key leave the second; repeating a save changes nothing |
| `IdempotencyRepository.LookupAfterSaves` | src/infrastructure/repositories/InMemoryIdempotencyRepository.js:9-11 | after any series of saves, `get(k)` sees the last save to `k` (last write wins), else the prior entry |
| `IdempotencyRepository.NeverSavedIsAbsent` | src/infrastructure/repositories/InMemoryIdempotencyRepository.js:1-7 | a key no save touched is absent from a freshly created repository |
| `IdempotencyRepository.InMemoryIdempotencyRepository.constructor` | src/infrastructure/repositories/InMemoryIdempotencyRepository.js:1-2 | a new repository has an empty store |
| `IdempotencyRepository.InMemoryIdempotencyRepository.Get` | src/infrastructure/repositories/InMemoryIdempotencyRepository.js:5-7 | returns the map lookup; no `modifies`, so the store is untouched |
| `IdempotencyRepository.InMemoryIdempotencyRepository.Save` | src/infrastructure/repositories/InMemoryIdempotencyRepository.js:9-11 | the key maps to the new record, every other key as before |
| `Middleware.IdempotencyMiddleware` | src/api/middlewares/idempotencyMiddleware.js:3-10 | rejected exactly when the header is absent or empty, with a 400 BadRequestError "Missing Idempotency-Key header" and the request unchanged; otherwise `idempotencyKey` is exactly the header value and `next` gets no error |
| `Payments.PaymentService.CreateOrderWithRetry` | src/core/services/PaymentService.js:10-23 | the loop's result and the calls and waits it makes are those of `RetryRun` |
| `Payments.PaymentService.ProcessPayment` | src/core/services/PaymentService.js:28-85 | result, new ledger and gateway trace are those of `Process`; a failure leaves the ledger unchanged; a success maps the key to `{response, Hash(payload)}` |
| `PaymentProperties.BackoffsAt` | src/core/services/PaymentService.js:17 | the k-th backoff is 500 * k ms |
| `PaymentProperties.ScheduleCounts` | src/core/services/PaymentService.js:11-18 | a run stopping at attempt k makes k + 1 createOrder calls and waits 500, ..., 500 * k ms |
| `PaymentProperties.RetryOutcome` | src/core/services/PaymentService.js:10-22 | if attempts before k failed transiently and attempt k is the last allowed or not a transient failure, the loop returns attempt k's answer unchanged, after exactly the schedule of calls and waits |
| `PaymentProperties.RetryShape` | src/core/services/PaymentService.js:10-22 | conversely, every run makes at most `retries + 1` attempts; all but the last failed transiently; the last is returned as it is |
| `PaymentProperties.RetryFirstSuccess` | src/core/services/PaymentService.js:13 | a first success is returned at once after one call and no wait |
| `PaymentProperties.RetrySucceedsAfterTransientFailures` | src/core/services/PaymentService.js:15-18 | after k transient failures, a success at attempt k <= retries is returned after k + 1 calls and exactly the waits 500 * 1 .. 500 * k |
| `PaymentProperties.RetryStopsOnPermanentFailure` | src/core/services/PaymentService.js:15-20 | a non-transient failure ends the loop after exactly that attempt and is rethrown unchanged |
| `PaymentProperties.RetryExhausted` | src/core/services/PaymentService.js:15-20 | when all retries + 1 attempts fail transiently, the last provider error is rethrown unwrapped, after `retries` waits |
| `PaymentProperties.RetryAttemptsBounded` | src/core/services/PaymentService.js:11 | whatever the provider answers, 1 to retries + 1 createOrder calls are made |
| `PaymentProperties.ConflictOnHashMismatch` | src/core/services/PaymentService.js:30-36 | a record with a different hash gives the default 409 conflict; no provider call; ledger unchanged |
| `PaymentProperties.ReplayOnHashMatch` | src/core/services/PaymentService.js:33-38 | a record with the same hash returns the stored response verbatim, with no provider call and no write |
| `PaymentProperties.ConflictExactlyOnMismatch` | src/core/services/PaymentService.js:33-36 | an application (conflict) error is returned if and only if a record exists with a different hash |
| `PaymentProperties.ProviderCalledExactlyWithoutRecord` | src/core/services/PaymentService.js:31-43 | the provider is called if and only if no record exists, and the first call is auth |
| `PaymentProperties.LedgerEffect` | src/core/services/PaymentService.js:41-84 | a failure writes nothing; a success leaves the key mapped to `{response, Hash(payload)}` equal to the returned response; other keys never change |
| `PaymentProperties.ReplayAfterSuccess` | src/core/services/PaymentService.js:30-79 | after a success, the same key and payload replay the same response (same `id`), whatever the provider and clock now say, with no call and no write |
| `PaymentProperties.ConflictAfterSuccess` | src/core/services/PaymentService.js:30-36 | after a success, a payload with a different hash (any different payload, if the hash is injective) is refused with a conflict; the stored record stays the first |
| `PaymentProperties.RerunAfterFailure` | src/core/services/PaymentService.js:41-84 | a failed call leaves no record, so a later call under that key re-runs the workflow from auth |
| `PaymentProperties.WorkflowTrace` | src/core/services/PaymentService.js:41-79 | each step runs only after the previous succeeded, with the arguments threaded from earlier answers; the outcome is the failing step's error or the normalised response of the last order attempt |
| `PaymentProperties.CallOrder` | src/core/services/PaymentService.js:43-59 | calls come in the order auth, createBeneficiary, createQuote, then createOrder attempts with backoff waits between them; every createOrder gets the auth token, the quote's `quoteId` and the beneficiary's `beneficiaryId` |
| `PaymentProperties.TokenThreaded` | src/core/services/PaymentService.js:43-59 | every call after auth carries the token auth returned |
| `PaymentProperties.FailurePropagates` | src/core/services/PaymentService.js:41-84 | an auth, beneficiary, quote or last-order failure ends the call with that same provider error after exactly the calls made so far; nothing is written |
| `PaymentProperties.SuccessResponseFromDownstream` | src/core/services/PaymentService.js:62-74 | `id` and `status` come from the last order attempt, `quote` is `{quoteId, totalAmount, fee}`, `beneficiary.id` is the beneficiary's id, `createdAt` is the supplied time |
| `PaymentProperties.HappyPath` | src/core/services/PaymentService.js:41-79 | when every call succeeds at once, exactly the four calls are made and the response is stored |
| `PaymentProperties.ReplayAndConflictScenario` | scripts/verify.js:38-58 | on the stateful service: a successful first call is replayed with the same `id`; a payload with another hash gets 409; the first record stays |
| `ErrorHandler.HandleError` | src/app.js:15-26 | an application error answers with its status code, the error name "Error" and its message; any other error answers 500 "Something went wrong" |
| `ErrorHandler.ConflictAnswers409` | src/app.js:18-23 | a reused key with a different payload answers 409 with the default conflict message |
| `ErrorHandler.ExhaustedRetriesAnswer500` | src/core/services/PaymentService.js:15-20 | an order that fails transiently on all three attempts propagates the raw provider error, which answers 500, and nothing is saved |

## Behaviour of the code worth knowing

- `processPayment` reads the ledger with `get` (src/core/services/PaymentService.js:31) and writes
  it with a separate, later `save` (:77). There is no atomic insert, and `save` overwrites
  unconditionally (`SaveOverwrites`). Only the no-record path saves. A replay returns the stored
  response without writing (:37). So in a sequential run a record is never overwritten
  (`LedgerEffect`).
- When every createOrder attempt fails transiently, the loop rethrows the provider's raw error
  (src/core/services/PaymentService.js:20). `TransientError` (status 503) is imported but never
  thrown. Such a failure therefore reaches the generic handler and answers HTTP 500
  (`ExhaustedRetriesAnswer500`).
- The `name` of every `AppError` is the inherited "Error", so the response body's `error` field
  is "Error" for all of them (`HandleError`).

## Left out

- The concrete mock provider (src/infrastructure/providers/MockPaymentProvider.js): its uuids,
  its 10% random transient failure, its delays and its floating-point 1% fee. The provider's
  answers are inputs. Each answer depends on the moment of the call, not on its arguments.
- SHA-256 and `JSON.stringify` (src/core/services/PaymentService.js:6-8) are foreign calls. They
  are an arbitrary hash function, so key-order sensitivity of the serialisation is not modelled.
- Real timers and `new Date().toISOString()`: waits are recorded, and the timestamp is a parameter.
- Concurrency and interleaving of requests under one key at the `await` points. Each call runs
  to completion before the next one starts.
- The payload is the three fields the service reads. Other JSON fields and missing fields are not
  modelled. Amounts are reals.
- Express header lookup is case-insensitive. The model reads the lower-cased name under which
  Node.js stores the header.
- The controller (src/api/controllers/paymentController.js) is a pass-through that answers 200 or
  forwards the error. The Express wiring in src/app.js and all `console` logging are left out.
- `_createOrderWithRetry` is only ever called with the default `retries = 2`. A negative
  `retries`, for which the JavaScript loop would not run at all, is not modelled (`retries` is a
  `nat`).
