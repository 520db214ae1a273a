/** Option and Result, the failure-compatible datatypes the configuration
    builder uses in place of null pointers and thrown exceptions. */
module Wrappers {

  /** A nullable value: `None` stands for a null pointer. */
  datatype Option<+T> = None | Some(value: T)

  /** The outcome of a build step: either the value it produced or the
      error that aborted it.  Usable with `:-`. */
  datatype Result<+T, +E> = Ok(value: T) | Err(error: E) {

    predicate IsFailure() {
      Err?
    }

    function PropagateFailure<U>(): Result<U, E>
      requires Err?
    {
      Err(error)
    }

    function Extract(): T
      requires Ok?
    {
      value
    }
  }
}
