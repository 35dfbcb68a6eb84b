/** Optional values and error-carrying results, used for Python's `None` and for exceptions. */
module Wrappers {

  datatype Option<+T> = None | Some(value: T) {
    /** Python's `x or default` on an optional value. */
    function GetOr(default: T): T {
      match this
      case Some(v) => v
      case None => default
    }
  }

  /** The result of a call that may raise: either its value or the exception's text. */
  datatype Result<+T, +E> = Ok(value: T) | Err(error: E)
}
