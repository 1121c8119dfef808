/** Option and Result, the failure-carrying datatypes the rest of the model returns. */
module Wrappers {

  /** A value that may be absent: a JavaScript `undefined`, `null` or `NaN`. */
  datatype Option<+T> = None | Some(value: T) {

    /** Returns the value, or `default` when absent (JavaScript's `x || default`). */
    function GetOr(default: T): T {
      match this
      case Some(v) => v
      case None => default
    }
  }

  /** Either the value an operation produced or the reason it refused. */
  datatype Result<+R, +E> = Success(value: R) | Failure(error: E)
}
