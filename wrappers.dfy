/** Failure-compatible wrappers shared by the whole model. */
module Wrappers {

  /** `undefined` (None) or a present value (Some). */
  datatype Option<+T> = None | Some(value: T) {
    function GetOr(default: T): T {
      match this
      case Some(v) => v
      case None => default
    }
  }

  /** A value, or the message of the error a JavaScript function would throw. */
  datatype Result<+T> = Ok(value: T) | Err(message: string)
}
