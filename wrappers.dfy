/** Optional values and the outcome of a remote call. */
module Wrappers {

  /** A value that may be absent; None stands for JavaScript's `undefined` (or NaN for numbers). */
  datatype Option<+T> = None | Some(value: T) {

    /** The wrapped value, or `default` when absent: the `x || ''` idiom of the form. */
    function GetOr(default: T): T {
      match this
      case Some(v) => v
      case None => default
    }
  }

  /** The outcome of one call into the remote service: the decoded body, or a failure
      (a non-2xx status or a network error, both thrown by the API client). */
  datatype Result<+T> = Success(value: T) | Failure
}
