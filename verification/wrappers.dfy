/** Option and Result, used for Python's `None` and for the handlers' tagged outcomes. */
module Wrappers {

  datatype Option<+T> = None | Some(value: T) {
    function GetOr(default: T): T {
      match this
      case Some(v) => v
      case None => default
    }
  }

  /** A handler either builds its typed response or stops with a failure. */
  datatype Result<+T, +E> = Ok(value: T) | Err(error: E)
}
