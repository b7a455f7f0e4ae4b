/** Option, Result and Outcome: Java's nullable references, exceptions and void checks. */
module Wrappers {

  /** A Java reference that may be null. */
  datatype Option<+T> = None | Some(value: T) {
    function GetOr(default: T): T {
      match this
      case Some(v) => v
      case None => default
    }
  }

  /** A call that either returns a value or throws. */
  datatype Result<+T, +E> = Ok(value: T) | Err(error: E)

  /** A void call that either returns normally or throws. */
  datatype Outcome<+E> = Pass | Fail(error: E)
}
