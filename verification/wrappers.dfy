/** The optional value and the error-or-value results used across the model. */
module Wrappers {

  /** A JavaScript value that may be `undefined` / `null`. */
  datatype Option<+T> = None | Some(value: T) {
    function GetOr(default: T): T {
      match this
      case Some(v) => v
      case None => default
    }
  }

  /** A call that either returns a value or throws an error with a message. */
  datatype Result<+T> = Success(value: T) | Failure(error: string)
}
