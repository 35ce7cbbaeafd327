/**
 * The error type of the server (server/src/utils/exception/index.ts): the
 * `AppError` class with its default status, and the normalisation that turns
 * anything a handler throws into an `AppError`.
 */
module Exception {
  import opened Wrappers

  // HTTP status codes, as the http-status package defines them.
  const BAD_REQUEST := 400
  const UNAUTHORIZED := 401
  const FORBIDDEN := 403
  const NOT_FOUND := 404
  const CONFLICT := 409
  const INTERNAL_SERVER_ERROR := 500

  /**
   * An `AppError` instance: its `type`, its message, its HTTP status and the
   * stack trace it carries. A fresh instance captures its own stack from the
   * JavaScript runtime; the model records `None` for that.
   */
  datatype AppError = AppError(errorType: string, message: string, httpStatus: int, stack: Option<string>)

  /** Everything a service or handler can throw. */
  datatype Thrown =
    | Raised(appError: AppError)                                  // an `AppError`
    | RaisedError(name: string, message: string, stack: Option<string>) // any other `Error`
    | RaisedValue(typeName: string, inspected: string)            // a value that is not an `Error`;
                                                                  // `inspected` is what `util.inspect` prints

  /** `new AppError(type, message[, status])`: the status defaults to 500. */
  function NewAppError(errorType: string, message: string, status: Option<int>): (e: AppError)
    ensures e.errorType == errorType && e.message == message && e.stack.None?
    ensures status.None? ==> e.httpStatus == INTERNAL_SERVER_ERROR
    ensures status.Some? ==> e.httpStatus == status.value
  {
    AppError(errorType, message, if status.Some? then status.value else INTERNAL_SERVER_ERROR, None)
  }

  /** `throw new AppError(type, message, status)` */
  function Fail(errorType: string, message: string, status: int): Thrown
  {
    Raised(NewAppError(errorType, message, Some(status)))
  }

  /** `throw new Error(message)` */
  function PlainError(message: string): Thrown
  {
    RaisedError("Error", message, None)
  }

  /** The message given to a thrown value that is not an `Error`. */
  function NonErrorMessage(typeName: string, inspected: string): string
  {
    "Error Handler received a none error instance with type - " + typeName + ", value - " + inspected
  }

  /**
   * `normalizeError`: an `AppError` is returned as it is; another `Error`
   * becomes an `AppError` of type `name`, same message, status 500, keeping a
   * non-empty stack; any other value becomes a `GENERAL_ERROR` with status 500.
   */
  function NormalizeError(thrown: Thrown): (e: AppError)
    ensures thrown.Raised? ==> e == thrown.appError
    ensures thrown.RaisedError? ==>
      && e.errorType == thrown.name && e.message == thrown.message
      && e.httpStatus == INTERNAL_SERVER_ERROR
      && e.stack == (if Truthy(thrown.stack) then thrown.stack else None)
    ensures thrown.RaisedValue? ==>
      && e.errorType == "GENERAL_ERROR"
      && e.message == NonErrorMessage(thrown.typeName, thrown.inspected)
      && e.httpStatus == INTERNAL_SERVER_ERROR
  {
    match thrown
    case Raised(appError) => appError
    case RaisedError(name, message, stack) =>
      var appError := NewAppError(name, message, Some(INTERNAL_SERVER_ERROR));
      if Truthy(stack) then appError.(stack := stack) else appError
    case RaisedValue(typeName, inspected) =>
      NewAppError("GENERAL_ERROR", NonErrorMessage(typeName, inspected), Some(INTERNAL_SERVER_ERROR))
  }

  /**
   * `HandleError`: the normalised error (its logging is not modelled). Only an
   * `AppError` can carry a status other than 500.
   */
  function HandleError(thrown: Thrown): (e: AppError)
    ensures e.httpStatus != INTERNAL_SERVER_ERROR ==> thrown.Raised? && e == thrown.appError
    ensures !thrown.Raised? ==> e.httpStatus == INTERNAL_SERVER_ERROR
  {
    NormalizeError(thrown)
  }

  /** Normalising an already normalised error changes nothing. */
  lemma NormalizeIdempotent(thrown: Thrown)
    ensures NormalizeError(Raised(NormalizeError(thrown))) == NormalizeError(thrown)
  {
  }

  /** The status a client sees for a thrown value. */
  function StatusOf(thrown: Thrown): int
  {
    HandleError(thrown).httpStatus
  }

  /** A `Fail` reaches the client with exactly its status and message. */
  lemma FailReachesClient(errorType: string, message: string, status: int)
    ensures HandleError(Fail(errorType, message, status)) == AppError(errorType, message, status, None)
  {
  }

  /** A plain `Error` always reaches the client as a 500 of type "Error". */
  lemma PlainErrorIsInternal(message: string)
    ensures HandleError(PlainError(message)) == AppError("Error", message, INTERNAL_SERVER_ERROR, None)
  {
  }
}
