/** Failure-carrying wrappers shared by the model: an optional value and a result. */
module Wrappers {

  /** A value that may be absent (Python's `Optional[T]`, with `None` for absence). */
  datatype Option<+T> = None | Some(value: T) {
    function GetOr(default: T): T {
      match this
      case Some(v) => v
      case None => default
    }
  }

  /** The outcome of an operation that may raise: `Failure` carries the exception's message. */
  datatype Result<+T> = Success(value: T) | Failure(error: string)

  /** The outcome of an operation that returns nothing but may raise. */
  datatype Outcome = Pass | Fail(error: string)
}
