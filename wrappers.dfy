/** Failure-compatible result types shared by every module of the model. */
module Wrappers {

  /** A value that may be absent; Python's `None` is `None` here. */
  datatype Option<+T> = None | Some(value: T) {
    function GetOr(default: T): T {
      match this
      case Some(v) => v
      case None => default
    }
  }

  /** The Python exception classes that the modelled code raises or lets escape. */
  datatype Error =
    | ValueError(message: string)
    | ArgumentTypeError(message: string)
    | IndexError
    | TypeError
    | ZeroDivisionError

  /** The result of an operation that either returns a value or raises. */
  datatype Result<+T> = Ok(value: T) | Err(error: Error)
}
