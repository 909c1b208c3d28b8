/** Optional values and results with an error, used across the model. */
module Wrappers {

  /** A value that may be absent: a missing JSON field, a `null`, a Python `None`. */
  datatype Option<+T> = None | Some(value: T) {
    /** The value when present, else `default`. */
    function GetOr(default: T): T
    {
      match this
      case Some(v) => v
      case None => default
    }
  }

  /** The outcome of a call that may raise: a value, or the error it raised. */
  datatype Result<+T, +E> = Ok(value: T) | Err(error: E)
}
