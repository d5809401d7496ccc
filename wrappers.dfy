/** Optional values and results, as the plugins use std::optional and early error returns. */
module Wrappers {

  datatype Option<+T> = None | Some(value: T) {
    function GetOr(default: T): T
    {
      match this
      case Some(v) => v
      case None => default
    }
  }

  /** A computation that either succeeds with a value or fails with a message. */
  datatype Result<+R> = Success(value: R) | Failure(error: string)
}
