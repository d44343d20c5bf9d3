/** Option and Result, the two failure-carrying shapes the taxonomy facade returns. */
module Wrappers {

  /** A value that may be absent: the source's `null` results. */
  datatype Option<+T> = None | Some(value: T)

  /** The outcome of an asynchronous call: resolved with a value, or rejected with an error. */
  datatype Result<+T, +E> = Ok(value: T) | Err(error: E) {

    predicate IsFailure() {
      Err?
    }

    function PropagateFailure<U>(): Result<U, E>
      requires Err?
    {
      Err(error)
    }

    function Extract(): T
      requires Ok?
    {
      value
    }
  }
}
