/** Optional values (a dictionary key that may be missing) and results (a call that may raise). */
module Wrappers {

  datatype Option<+T> = None | Some(value: T) {
    /** The value, or `default` when it is missing (Python's `dict.get(key, default)`). */
    function GetOr(default: T): T {
      match this
      case Some(v) => v
      case None => default
    }
  }

  /** Either the value a call returned or the message of the exception it raised. */
  datatype Result<+R> = Success(value: R) | Failure(error: string)
}
