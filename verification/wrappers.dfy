/** Absent values and error returns, shared by every module of the model. */
module Wrappers {

  /** A value that may be missing: a Java `null` or a TypeScript `undefined`/`null`. */
  datatype Option<+T> = None | Some(value: T) {
    function GetOr(default: T): T {
      match this
      case Some(v) => v
      case None => default
    }
  }

  /** The outcome of an operation that can throw. */
  datatype Result<+R, +E> = Ok(value: R) | Err(error: E)
}
