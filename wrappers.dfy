/** Failure-compatible wrappers used throughout the model: an optional value
    (a JavaScript value that may be missing, null or NaN) and a result that
    carries either a value or the reason a handler stopped early. */
module Wrappers {

  datatype Option<+T> = None | Some(value: T) {
    function GetOr(default: T): T {
      match this
      case Some(v) => v
      case None => default
    }
  }

  datatype Result<+T, +E> = Ok(value: T) | Err(error: E)
}
