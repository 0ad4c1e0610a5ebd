/** Optional values and success-or-error results, standing in for Go's
    "value, ok" pairs and "(value, error)" returns. */
module Wrappers {

  /** A value that may be absent: a missing map key, an unset field, or a
      nil `error`. */
  datatype Option<+T> = None | Some(value: T) {

    /** The carried value, or `default` when there is none. */
    function GetOr(default: T): T {
      match this
      case Some(v) => v
      case None => default
    }
  }

  /** The outcome of an operation that either produces a value or fails with
      an error description. */
  datatype Result<+R, +E> = Success(value: R) | Failure(error: E)
}
