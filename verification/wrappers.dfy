/** Failure-compatible wrappers shared by the model: an optional value (Python's
    `X | None`) and the outcome of a call that may raise. */
module Wrappers {

  datatype Option<+T> = None | Some(value: T) {

    /** The carried value, or `default` when there is none. */
    function GetOr(default: T): T {
      match this
      case Some(v) => v
      case None => default
    }
  }

  /** `Success(v)` is a normal return of `v`; `Failure(e)` is the exception `e` raised. */
  datatype Result<+T, +E> = Success(value: T) | Failure(error: E)
}
