/** Failure-carrying results shared by every module of the model.
    A Python exception raised by the source becomes an `Err` carrying the
    exception class and its message. */
module Wrappers {

  datatype Option<+T> = None | Some(value: T) {
    function GetOr(default: T): T {
      match this
      case Some(v) => v
      case None => default
    }
  }

  /** The exception classes the modelled code raises or lets escape. */
  datatype ErrorKind =
    | ValueError
    | ValidationError
    | KeyError
    | AttributeError
    | TypeError
    | IndexError
    | ZeroDivisionError
    | InstrumentError
    | RuntimeFailure

  datatype Exc = Exc(kind: ErrorKind, message: string)

  datatype Result<+T> = Ok(value: T) | Err(error: Exc) {
    predicate IsFailure() {
      Err?
    }

    function PropagateFailure<U>(): Result<U>
      requires Err?
    {
      Err(error)
    }

    function Extract(): T
      requires Ok?
    {
      value
    }
  }

  function Raise<T>(kind: ErrorKind, message: string): Result<T> {
    Err(Exc(kind, message))
  }
}
