/** Option and Result values shared by every module of the model. */
module Wrappers {

  /** A value that may be absent (Python None, JavaScript null or undefined). */
  datatype Option<+T> = None | Some(value: T) {
    function GetOr(default: T): T {
      match this
      case Some(v) => v
      case None => default
    }
  }

  /** The outcome of an operation that can raise or reject. */
  datatype Result<+T, +E> = Success(value: T) | Failure(error: E)
}
