/** Option and Result, for the lookups and calls of the source that can fail. */
module Wrappers {

  /** A value that may be absent: a JSON key the language model left out. */
  datatype Option<+T> = None | Some(value: T) {

    /** The value, or `default` when absent (Python's `dict.get(key, default)`). */
    function GetOr(default: T): (r: T)
      ensures Some? ==> r == value
      ensures None? ==> r == default
    {
      match this
      case Some(v) => v
      case None => default
    }
  }

  /** The outcome of a computation that can stop with an error. */
  datatype Result<+R, +E> = Success(value: R) | Failure(error: E)
}
