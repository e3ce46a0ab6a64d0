/** Option and Result, the two failure-carrying shapes the model uses
    for "null / undefined" and for a handler that refuses with a toast. */
module Wrappers {

  datatype Option<+T> = None | Some(value: T) {
    /** `x ?? d` */
    function GetOr(default: T): T {
      match this
      case Some(v) => v
      case None => default
    }
  }

  /** A handler that either produces a value or shows an error message. */
  datatype Result<+T> = Ok(value: T) | Err(message: string)
}
