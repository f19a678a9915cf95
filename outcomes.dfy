/** Option and Result: the shapes of Rust's `Option` and `anyhow::Result` that the
    scanner and the parser return. `Result` is failure-compatible, so `:-` plays the
    role of Rust's `?` operator. */
module Outcomes {

  datatype Option<+T> = None | Some(value: T)

  datatype Result<+T, +E> = Ok(value: T) | Err(error: E) {

    predicate IsFailure() {
      Err?
    }

    function PropagateFailure<U>(): Result<U, E>
      requires Err?
    {
      Err(error)
    }

    function Extract(): T
      requires Ok?
    {
      value
    }
  }
}
