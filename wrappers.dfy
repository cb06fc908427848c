/** Optional values and results with an error, shared by every module. */
module Wrappers {

  /** A value that may be absent: a missing JSON key, a failed fetch. */
  datatype Option<+T> = None | Some(value: T) {

    /** The value, or `default` when absent (Python's `dict.get(key, default)`). */
    function GetOr(default: T): T {
      match this
      case Some(v) => v
      case None => default
    }
  }

  /** The outcome of an operation that raises `ValueError` in the server. */
  datatype Result<+T, +E> = Ok(value: T) | Err(error: E)
}
