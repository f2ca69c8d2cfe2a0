/** Optional values (Java null, JavaScript null/undefined) and failure results
    (Java exceptions, rejected promises). */
module Wrappers {

  datatype Option<+T> = None | Some(value: T) {
    function GetOr(default: T): T {
      match this
      case Some(v) => v
      case None => default
    }
  }

  datatype Result<+T, +E> = Ok(value: T) | Failure(error: E)
}
