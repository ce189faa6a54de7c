/** Failure-carrying results shared by the modules of this model: an absent
    value (a JavaScript `undefined`, a C++ null pointer) and an operation that
    either produces a value or throws. */
module Wrappers {

  datatype Option<+T> = None | Some(value: T) {
    predicate IsFailure() { None? }

    function PropagateFailure<U>(): Option<U>
      requires None?
    {
      None
    }

    function Extract(): T
      requires Some?
    {
      value
    }
  }

  /** A value, or the message of the error that was thrown instead. */
  datatype Result<+R> = Ok(value: R) | Err(error: string) {
    predicate IsFailure() { Err? }

    function PropagateFailure<U>(): Result<U>
      requires Err?
    {
      Err(error)
    }

    function Extract(): R
      requires Ok?
    {
      value
    }
  }

  /** An operation without a value that either returns normally or throws. */
  datatype Outcome = Pass | Fail(error: string)
}
