/** Option, Result and Outcome values: the model's stand-ins for Python's
    None, for "return a value or raise", and for "raise or fall through". */
module Wrappers {

  datatype Option<+T> = None | Some(value: T) {
    function GetOr(default: T): T {
      match this
      case Some(v) => v
      case None => default
    }
  }

  datatype Result<+R, +E> = Success(value: R) | Failure(error: E)

  /** The outcome of a step that either completes or raises `error`. */
  datatype Outcome<+E> = Pass | Fail(error: E)
}
