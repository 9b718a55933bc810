/** Failure-carrying datatypes shared by the whole model.

    The modelled code signals failure by raising Python exceptions; the model
    returns them as values of `Error` instead. */
module Wrappers {

  datatype Option<T> = None | Some(value: T)

  /** The Python exception classes that the modelled code can raise.
      `AssertionError` comes from an `assert` statement, `ValueError` also
      stands for numpy's shape (broadcasting) errors. */
  datatype Error =
    | AssertionError
    | KeyError
    | ValueError
    | IndexError
    | TypeError
    | RuntimeError

  /** A value or the exception raised instead of producing it. */
  datatype Result<T> = Ok(value: T) | Err(error: Error) {
    predicate IsFailure() { Err? }

    function PropagateFailure<U>(): Result<U>
      requires Err?
    {
      Err(error)
    }

    function Extract(): T
      requires Ok?
    {
      value
    }
  }
}
