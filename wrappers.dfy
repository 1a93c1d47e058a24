/** Option and Outcome: the model's stand-ins for `undefined`/`null` and for a thrown error. */
module Wrappers {

  /** A value that may be missing (`undefined` or `null` in the source). */
  datatype Option<+T> = None | Some(value: T) {
    function GetOr(default: T): T {
      match this
      case Some(v) => v
      case None => default
    }
  }

  /** The value of an operation, or the error it throws instead. */
  datatype Result<+T, +E> = Ok(value: T) | Err(error: E)

  /** The result of an operation that may throw instead of completing. */
  datatype Outcome<+E> = Pass | Fail(error: E)
}
