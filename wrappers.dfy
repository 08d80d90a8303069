/** Failure-carrying values: a Go `(value, error)` pair or a nil-able pointer. */
module Wrappers {

  /** A nil-able value (a Go pointer, interface or slice that may be nil). */
  datatype Option<+T> = None | Some(value: T) {
    function GetOr(default: T): T {
      match this
      case Some(v) => v
      case None => default
    }
  }

  /** A Go `(value, error)` return: exactly one of the two is meaningful. */
  datatype Result<+R, +E> = Success(value: R) | Failure(error: E)
}
