/** Failure-compatible wrappers shared by every module of the model. */
module Wrappers {

  /** A value that may be absent: JavaScript's `undefined` / `null` for a typed value. */
  datatype Option<+T> = None | Some(value: T) {
    function GetOr(default: T): T {
      match this
      case Some(v) => v
      case None => default
    }
  }

  /** The outcome of code that may throw: `Err` carries the thrown message. */
  datatype Result<+T> = Ok(value: T) | Err(error: string)

  /** The outcome of a statement that returns nothing but may throw. */
  datatype Outcome = Pass | Fail(error: string)
}
