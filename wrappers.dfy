/** Stock optional-value and result datatypes shared by the other modules. */
module Wrappers {

  /** A value that may be absent; stands for C#'s nullable references. */
  datatype Option<+T> = None | Some(value: T) {
    function GetOr(default: T): T {
      match this
      case Some(v) => v
      case None => default
    }
  }

  /** The outcome of an operation that may throw: the value, or the exception it throws. */
  datatype Result<+R, +E> = Success(value: R) | Failure(error: E)
}
