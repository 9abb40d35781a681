/** The route middleware that requires an `Idempotency-Key` header and attaches
    its value to the request. */
module Middleware {
  import opened Wrappers
  import opened Errors

  /** Header names as Node.js stores them, lower-cased. */
  const IdempotencyHeader: string := "idempotency-key"

  const MissingKeyMessage: string := "Missing Idempotency-Key header"

  /** The parts of an Express request the middleware touches. */
  datatype Request<B> = Request(headers: map<string, string>, body: B, idempotencyKey: Option<string>)

  /** `req.get('Idempotency-Key')`: the header value, or absent. */
  function HeaderValue<B>(req: Request<B>): Option<string>
  {
    if IdempotencyHeader in req.headers then Some(req.headers[IdempotencyHeader]) else None
  }

  /** `!key` for a header value: absent or the empty string. */
  predicate IsFalsy(v: Option<string>)
  {
    v.None? || v.value == ""
  }

  /** `idempotencyMiddleware(req, res, next)`. The request after the call and the
      argument handed to the single call of `next` (absent for `next()`) are the two
      results. */
  method IdempotencyMiddleware<B>(req: Request<B>) returns (req': Request<B>, nextError: Option<AppError>)
    ensures nextError.Some? <==> (IdempotencyHeader !in req.headers || req.headers[IdempotencyHeader] == "")
    ensures nextError.Some? ==>
              && nextError.value == NewBadRequestError(MissingKeyMessage)
              && StatusCode(nextError.value) == 400
              && nextError.value.message == "Missing Idempotency-Key header"
              && req' == req
    ensures nextError.None? ==>
              && IdempotencyHeader in req.headers
              && req' == req.(idempotencyKey := Some(req.headers[IdempotencyHeader]))
  {
    var key := HeaderValue(req);
    if IsFalsy(key) {
      return req, Some(NewBadRequestError(MissingKeyMessage));
    }
    req' := req.(idempotencyKey := Some(key.value));
    nextError := None;
  }
}
