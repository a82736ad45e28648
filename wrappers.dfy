/** Option and Result values used where the source returns `undefined`/`null`
    or an `ApiResponse` with `success: false`. */
module Wrappers {

  datatype Option<+T> = None | Some(value: T) {
    function GetOr(default: T): T {
      match this
      case Some(v) => v
      case None => default
    }
  }

  /** `Success` carries the payload of a successful call, `Failure` its error text. */
  datatype Result<+R, +E> = Success(value: R) | Failure(error: E)
}
