/** Optional values and results with an error, used wherever the Python code
    returns None or raises instead of returning. */
module Outcomes {

  datatype Option<+T> = None | Some(value: T) {
    function GetOr(default: T): T {
      match this
      case Some(v) => v
      case None => default
    }
  }

  /** A value, or the exception raised instead of it. */
  datatype Result<+T, +E> = Success(value: T) | Failure(error: E)
}
