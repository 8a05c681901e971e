// Option and Result, shared by the Rust and the Python halves of the model.
module Wrappers {
  datatype Option<T> = None | Some(value: T)

  /** A computation that either produced a value or failed with an error. */
  datatype Result<T, E> = Ok(value: T) | Err(error: E)
  {
    predicate IsFailure() { Err? }

    function PropagateFailure<U>(): Result<U, E>
      requires Err?
    {
      Err(error)
    }

    function Extract(): T
      requires Ok?
    {
      value
    }
  }
}
