/** Optional values and results with an error channel, used throughout the model. */
module Wrappers {

  /** A value that may be absent: JavaScript's `undefined`/`null` where the code tests for it. */
  datatype Option<+T> = None | Some(value: T) {

    /** The value, or `default` when absent (a JavaScript default parameter). */
    function GetOr(default: T): T {
      match this
      case Some(v) => v
      case None => default
    }
  }

  /** Either a value or the error that escaped. */
  datatype Result<+R, +E> = Success(value: R) | Failure(error: E)
}
