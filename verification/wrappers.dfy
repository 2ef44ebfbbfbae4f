/** The optional-value and success-or-failure wrappers used throughout the model. */
module Wrappers {

  /** A value that may be missing (JavaScript `undefined`/`null` at the call site). */
  datatype Option<+T> = None | Some(value: T) {
    function GetOr(default: T): T {
      match this
      case Some(v) => v
      case None => default
    }
  }

  /** Either a computed value or the failure that was thrown instead. */
  datatype Result<+R, +E> = Success(value: R) | Failure(error: E)
}
