/** Option, Result and Outcome, and the exceptions the modelled Python code raises. */
module Wrappers {

  datatype Option<+T> = None | Some(value: T) {
    function GetOr(default: T): T {
      match this
      case Some(v) => v
      case None => default
    }
  }

  /** A Python exception: its class name and what `str(e)` gives. */
  datatype Error = Error(kind: string, message: string)

  /** Either a value or the exception raised instead of producing it. */
  datatype Result<+T> = Ok(value: T) | Err(error: Error) {
    function GetOr(default: T): T {
      match this
      case Ok(v) => v
      case Err(_) => default
    }
  }

  /** The outcome of a call made only for its effect: it returned, or it raised. */
  datatype Outcome = Pass | Fail(error: Error)

  /** `KeyError(key)`; Python renders the key with quotes. */
  function KeyError(key: string): Error {
    Error("KeyError", "'" + key + "'")
  }
}
