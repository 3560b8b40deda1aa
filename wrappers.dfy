/** Option and Result, the two wrappers the translation layer needs. */
module Wrappers {

  /** An optional value: a Go pointer field that may be nil. */
  datatype Option<+T> = None | Some(value: T)

  /** A value or the error that prevented it, usable with `:-`. */
  datatype Result<+T, +E> = Ok(value: T) | Err(error: E) {

    predicate IsFailure() {
      Err?
    }

    function PropagateFailure<U>(): Result<U, E>
      requires Err?
    {
      Err(error)
    }

    function Extract(): T
      requires Ok?
    {
      value
    }
  }
}
