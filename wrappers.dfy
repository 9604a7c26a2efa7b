/** Optional values and results with an error, used where the program relies on null or throws. */
module Wrappers {

  /** A value that may be absent: the program's `null`. */
  datatype Option<+T> = None | Some(value: T)
  {
    /** The value, or `default` when there is none (the `??` operator). */
    function GetOr(default: T): T
    {
      match this
      case Some(v) => v
      case None => default
    }
  }

  /** The outcome of a step that may throw: a value, or the error it stops with. */
  datatype Result<+T, +E> = Ok(value: T) | Err(error: E)
}
