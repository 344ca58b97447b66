/** Option and Result, the two failure-carrying types the model uses in place of
    PHP's `null` returns and thrown `InvalidArgumentException`s. */
module Wrappers {

  datatype Option<+T> = None | Some(value: T) {
    /** PHP's `$x ?? $default`. */
    function GetOr(default: T): T {
      match this
      case Some(v) => v
      case None => default
    }
  }

  datatype Result<+R, +E> = Success(value: R) | Failure(error: E)
}
