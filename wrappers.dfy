/** Optional values and results with an error message, shared by every module. */
module Wrappers {

  /** A value that may be absent (Python's `X | None`). */
  datatype Option<+T> = None | Some(value: T) {

    /** The value, or `default` when absent. */
    function GetOr(default: T): T {
      match this
      case Some(v) => v
      case None => default
    }
  }

  /** The value a validator returns, or the message of the exception it raises. */
  datatype Result<+T> = Success(value: T) | Failure(error: string)
}
