/** Optional values and results with an error message. */
module Wrappers {
  datatype Option<+T> = None | Some(value: T) {
    function GetOr(default: T): T {
      match this
      case Some(v) => v
      case None => default
    }
  }

  /** The outcome of an operation that can throw: its value, or the thrown error's message. */
  datatype Result<+T> = Ok(value: T) | Failure(error: string)
}
