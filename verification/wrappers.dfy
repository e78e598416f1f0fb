/** Option and Result types shared by the rest of the model. */
module Wrappers {

  datatype Option<+T> = None | Some(value: T) {
    function GetOr(default: T): T {
      match this
      case Some(v) => v
      case None => default
    }
  }

  /** Either a value or an error, standing for Go's `(value, error)` pairs. */
  datatype Result<+T, +E> = Success(value: T) | Failure(error: E)
}
