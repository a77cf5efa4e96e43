/**
 * Optional values (JavaScript's `null` / `undefined` next to a present value)
 * and results of operations that may throw.
 */
module Wrappers {

  datatype Option<+T> = None | Some(value: T) {

    /** The value when present, otherwise `default` (JavaScript's `x ?? default`). */
    function GetOr(default: T): T {
      match this
      case Some(v) => v
      case None => default
    }
  }

  /** The value of an operation, or the message of the error it throws. */
  datatype Result<+T> = Ok(value: T) | Err(error: string)
}
