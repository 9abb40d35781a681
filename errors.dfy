/** The application's error taxonomy: a base `AppError` carrying a message and an
    HTTP status code, and three subclasses whose status codes are fixed. */
module Errors {
  import opened Wrappers

  /** Which class of the hierarchy constructed the error. The base class takes its
      status code from its caller; each subclass fixes its own. */
  datatype ErrorKind =
    | Base(status: int)
    | IdempotencyConflict
    | BadRequest
    | Transient

  /** The base constructor sets `isOperational` on every instance, whatever the subclass. */
  datatype AppError = AppError(kind: ErrorKind, message: string, isOperational: bool)

  const ConflictDefaultMessage: string := "Idempotency key reused with different payload"

  /** The `statusCode` field every `AppError` carries. */
  function StatusCode(e: AppError): int
  {
    match e.kind
    case Base(s) => s
    case IdempotencyConflict => 409
    case BadRequest => 400
    case Transient => 503
  }

  /** `new AppError(message, statusCode)` */
  function NewAppError(message: string, statusCode: int): (e: AppError)
    ensures e.message == message
    ensures StatusCode(e) == statusCode
    ensures e.isOperational
  {
    AppError(Base(statusCode), message, true)
  }

  /** `new IdempotencyConflictError(message?)`: an omitted message becomes the default one. */
  function NewIdempotencyConflictError(message: Option<string>): (e: AppError)
    ensures StatusCode(e) == 409
    ensures message.None? ==> e.message == ConflictDefaultMessage
    ensures message.Some? ==> e.message == message.value
    ensures e.isOperational
  {
    AppError(IdempotencyConflict, if message.Some? then message.value else ConflictDefaultMessage, true)
  }

  /** `new BadRequestError(message)` */
  function NewBadRequestError(message: string): (e: AppError)
    ensures StatusCode(e) == 400
    ensures e.message == message
    ensures e.isOperational
  {
    AppError(BadRequest, message, true)
  }

  /** `new TransientError(message)` */
  function NewTransientError(message: string): (e: AppError)
    ensures StatusCode(e) == 503
    ensures e.message == message
    ensures e.isOperational
  {
    AppError(Transient, message, true)
  }

  /** The three subclasses are told apart by their status codes alone. */
  lemma SubclassStatusCodesDistinct(m1: Option<string>, m2: string, m3: string)
    ensures StatusCode(NewIdempotencyConflictError(m1)) != StatusCode(NewBadRequestError(m2))
    ensures StatusCode(NewBadRequestError(m2)) != StatusCode(NewTransientError(m3))
    ensures StatusCode(NewIdempotencyConflictError(m1)) != StatusCode(NewTransientError(m3))
  {
  }
}
