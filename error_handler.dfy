/** The application's error-handling middleware: an `AppError` answers with its
    own status code and message; anything else answers 500 with a generic body. */
module ErrorHandler {
  import opened Errors
  import opened Provider
  import opened Payments
  import opened PaymentProperties

  /** The status and JSON body `{error, message}` sent back. */
  datatype HttpError = HttpError(status: int, error: string, message: string)

  /** `err.name` of every `AppError`: the subclasses do not override the name
      inherited from `Error`. */
  const AppErrorName: string := "Error"

  const InternalErrorName: string := "InternalServerError"
  const InternalErrorMessage: string := "Something went wrong"

  function HandleError(f: Failure): (r: HttpError)
    ensures f.AppFailure? ==> r.status == StatusCode(f.err) && r.error == AppErrorName && r.message == f.err.message
    ensures f.ProviderFailure? ==> r == HttpError(500, InternalErrorName, InternalErrorMessage)
  {
    match f
    case AppFailure(e) => HttpError(StatusCode(e), AppErrorName, e.message)
    case ProviderFailure(_) => HttpError(500, InternalErrorName, InternalErrorMessage)
  }

  /** A reused key with a different payload answers 409 with the conflict message. */
  lemma ConflictAnswers409(ledger: Ledger, hash: Payload -> Digest, replies: Replies, t: nat,
                           key: string, payload: Payload, createdAt: string)
    requires key in ledger && ledger[key].payloadHash != hash(payload)
    ensures var run := Process(ledger, hash, replies, t, key, payload, createdAt);
            run.result.Failure? && HandleError(run.result.error) == HttpError(409, AppErrorName, ConflictDefaultMessage)
  {
  }

  /** An order step that fails transiently on every attempt answers 500, not 503:
      the raw provider error reaches the handler unwrapped. */
  lemma ExhaustedRetriesAnswer500(ledger: Ledger, hash: Payload -> Digest, replies: Replies, t: nat,
                                  key: string, payload: Payload, createdAt: string)
    requires key !in ledger
    requires replies.auth(t).Success? && replies.beneficiary(t + 1).Success? && replies.quote(t + 2).Success?
    requires AllTransientBefore(replies.order, t + 3, DefaultRetries + 1)
    ensures var run := Process(ledger, hash, replies, t, key, payload, createdAt);
            && run.result.Failure? && run.result.error.ProviderFailure?
            && run.result.error.cause.isTransient
            && HandleError(run.result.error).status == 500
            && run.ledger == ledger
  {
    var auth := replies.auth(t).value;
    var call := OrderCall(auth.accessToken, OrderParams(replies.quote(t + 2).value.quoteId,
                                                        replies.beneficiary(t + 1).value.beneficiaryId));
    RetryExhausted(replies.order, t + 3, call, DefaultRetries);
  }
}
