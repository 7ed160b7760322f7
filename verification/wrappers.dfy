/** Option and Result values standing in for JavaScript's `null`/`undefined`
    and for the exceptions thrown by the storefront's asynchronous helpers. */
module Wrappers {

  datatype Option<+T> = None | Some(value: T) {
    function GetOr(default: T): T {
      match this
      case Some(v) => v
      case None => default
    }
  }

  datatype Result<+R, +E> = Success(value: R) | Failure(error: E)
}
