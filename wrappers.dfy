/** Optional values and results with an error, used across the model. */
module Wrappers {

  /** A value that may be absent (`undefined` / `null` in the plugin). */
  datatype Option<+T> = None | Some(value: T) {

    /** The carried value, or `default` when absent (the `??` operator). */
    function GetOr(default: T): (r: T)
      ensures Some? ==> r == value
      ensures None? ==> r == default
    {
      match this
      case Some(v) => v
      case None => default
    }
  }

  /** The outcome of an operation that either returns a value or throws. */
  datatype Result<+T, +E> = Success(value: T) | Failure(error: E)
}
