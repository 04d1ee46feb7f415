/** Option and Result: the failure-carrying values the rest of the model returns. */
module Wrappers {

  /** A value that may be missing (Python's `None`). */
  datatype Option<+T> = None | Some(value: T) {

    /** The wrapped value, or `default` when there is none. */
    function GetOr(default: T): T {
      match this
      case Some(v) => v
      case None => default
    }
  }

  /** A computed value, or the error that replaced it. */
  datatype Result<+T, +E> = Ok(value: T) | Err(error: E)
}
