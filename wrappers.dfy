/** Failure-carrying values shared by every module of the model. */
module Wrappers {

  /** A value that may be absent: a missing dictionary key, a parser that gave up. */
  datatype Option<+T> = None | Some(value: T) {
    function GetOr(default: T): T {
      match this
      case Some(v) => v
      case None => default
    }
  }

  /** The outcome of a request handler: a value, or the error the handler reports. */
  datatype Result<+R, +E> = Ok(value: R) | Err(error: E)
}
