/** Optional values and error-carrying results, used wherever the application
    reads something that may be missing or an operation that may fail. */
module Wrappers {

  datatype Option<+T> = None | Some(value: T) {
    function GetOr(default: T): T {
      match this
      case Some(v) => v
      case None => default
    }
  }

  /** The outcome of an operation that can throw: the value, or the error message. */
  datatype Result<+T> = Ok(value: T) | Err(message: string)
}
