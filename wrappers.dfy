/** Option and Result, the two failure-carrying wrappers the rest of the model uses. */
module Wrappers {

  /** A value that may be missing (`null`/`undefined` in the modelled code). */
  datatype Option<+T> = None | Some(value: T) {
    function GetOr(default: T): T {
      match this
      case Some(v) => v
      case None => default
    }
  }

  /** The outcome of a call that either produces a value or throws. */
  datatype Result<+T, +E> = Ok(value: T) | Err(error: E)
}
