/** Option and Result, the two failure-carrying datatypes this model uses. */
module Wrappers {

  /** A value that may be absent: `null`/`undefined` in the program, or a lookup that failed. */
  datatype Option<+T> = None | Some(value: T) {

    /** The value if present, otherwise `default` (the `??` operator). */
    function GetOr(default: T): T {
      match this
      case Some(v) => v
      case None => default
    }
  }

  /** The result of an operation that can raise an error. */
  datatype Result<+R, +E> = Success(value: R) | Failure(error: E)
}
