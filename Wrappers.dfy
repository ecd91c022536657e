/** Option and Result, used for PHP's `null` returns and thrown exceptions. */
module Wrappers {

  datatype Option<+T> = None | Some(value: T) {
    function GetOr(default: T): T {
      match this
      case Some(v) => v
      case None => default
    }
  }

  /** `Failure` stands for an exception thrown by the PHP code. */
  datatype Result<+R, +E> = Success(value: R) | Failure(error: E)
}
