/** Option and Result values: a C NULL pointer argument and a C++ exception
    are both modelled as values instead of as control flow. */
module Wrappers {

  /** A nullable C string argument: None is NULL. */
  datatype Option<+T> = None | Some(value: T) {

    /** The value, or `default` where the pointer was NULL. */
    function GetOr(default: T): T {
      match this
      case Some(v) => v
      case None => default
    }
  }

  /** The outcome of an operation that may throw: Failure carries the
      exception's message. */
  datatype Result<+R, +E> = Success(value: R) | Failure(error: E)
}
