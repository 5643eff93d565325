/** Option and Result, the two failure-carrying types the whole front end uses. */
module Wrappers {

  datatype Option<+T> = None | Some(value: T)

  /** A value or an error; `:-` stops at the first error, as Rust's `?` does. */
  datatype Result<+T, +E> = Ok(value: T) | Err(error: E) {
    predicate IsFailure() {
      Err?
    }

    function PropagateFailure<U>(): Result<U, E>
      requires Err?
    {
      Err(error)
    }

    function Extract(): T
      requires Ok?
    {
      value
    }
  }
}
