/** Failure-carrying values used throughout the model: `Option` for the
    source's nullable references and `Result` for operations that throw. */
module Wrappers {

  datatype Option<+T> = None | Some(value: T) {
    function GetOr(default: T): T {
      match this
      case Some(v) => v
      case None => default
    }
  }

  /** The exceptions the modelled code raises, by .NET exception kind. */
  datatype Error =
    | InvalidOperation(message: string)
    | ArgumentNull(parameter: string)
    | ArgumentOutOfRange(parameter: string)
    | KeyNotFound(key: string)
    | DuplicateKey(key: string)
    | NullReference
    | Format(text: string)
    | Overflow(text: string)
    | NotImplemented

  datatype Result<+T> = Ok(value: T) | Err(error: Error) {
    predicate IsFailure() { Err? }
    function PropagateFailure<U>(): Result<U>
      requires Err?
    {
      Err(error)
    }
    function Extract(): T
      requires Ok?
    {
      value
    }
  }

  /** A .NET method that returns nothing but may throw. */
  datatype Outcome = Done | Failed(error: Error) {
    predicate IsFailure() { Failed? }
    function PropagateFailure<U>(): Result<U>
      requires Failed?
    {
      Err(error)
    }
  }
}
