/** Failure-compatible wrappers shared by every module of the model.
    A Python function that can raise is modelled as one returning a `Result`,
    whose error names the exception class the source raises. */
module Wrappers {

  datatype Option<+T> = None | Some(value: T) {
    predicate IsFailure() { None? }

    function PropagateFailure<U>(): Option<U>
      requires None?
    {
      None
    }

    function Extract(): T
      requires Some?
    {
      value
    }
  }

  /** The Python exception classes the modelled code raises or catches. */
  datatype Exception =
    | ValueError(message: string)
    | IndexError
    | TypeError
    | AttributeError
    | KeyError
    | NameError
    | NotImplementedError(message: string)
    | RuntimeError(message: string)
    | ValidationError(field: string)
    | Base64Error(message: string)

  datatype Result<+T> = Ok(value: T) | Err(error: Exception) {
    predicate IsFailure() { Err? }

    function PropagateFailure<U>(): Result<U>
      requires Err?
    {
      Err(error)
    }

    function Extract(): T
      requires Ok?
    {
      value
    }
  }
}
