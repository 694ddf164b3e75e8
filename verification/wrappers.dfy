/** Failure-carrying values shared by the modules of this model. */
module Wrappers {

  /** A value that may be absent: Python's `None`, a missing dictionary key. */
  datatype Option<+T> = None | Some(value: T)
  {
    /** The value, or `default` when there is none (Python's `dict.get(key, default)`). */
    function GetOr(default: T): T
    {
      match this
      case Some(v) => v
      case None => default
    }
  }

  /** The outcome of an operation that raises on bad input. */
  datatype Result<+T, +E> = Success(value: T) | Failure(error: E)
}
