/** Option and Result, the two outcome shapes the model uses in place of
    Python's None and raised exceptions. */
module Wrappers {

  /** `None` stands for a missing value, or for a foreign call that raised. */
  datatype Option<+T> = None | Some(value: T) {
    function GetOr(default: T): T {
      match this
      case Some(v) => v
      case None => default
    }
  }

  /** A foreign call that either returns a value or raises an exception
      whose `str(e)` is `error`. */
  datatype Result<+T, +E> = Success(value: T) | Failure(error: E)
}
