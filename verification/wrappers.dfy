/** Option and Result values used wherever the JavaScript code returns
    `null`/`undefined` or throws. */
module Wrappers {

  datatype Option<+T> = None | Some(value: T) {
    /** The wrapped value, or `default` when there is none. */
    function GetOr(default: T): T {
      match this
      case Some(v) => v
      case None => default
    }
  }

  /** `Failure` carries the message of the `Error` the code throws. */
  datatype Result<+R, +E> = Success(value: R) | Failure(error: E)
}
