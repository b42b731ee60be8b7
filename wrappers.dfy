/** Option and Result, used for Python's `None` and for calls that may raise. */
module Wrappers {

  datatype Option<+T> = None | Some(value: T) {
    /** `x if x is not None else d` */
    function GetOr(default: T): T {
      match this
      case Some(v) => v
      case None => default
    }
  }

  /** The outcome of a call into an outside service: its value, or the text of the exception it raised. */
  datatype Result<+T> = Success(value: T) | Failure(error: string)
}
