/** Option and Result: absent cells and the exceptions the pipeline stages raise. */
module Wrappers {

  /** A cell value that may be absent (pandas NaN / None). */
  datatype Option<+T> = None | Some(value: T)

  /** The outcome of a stage: a value, or the error the stage raises. Usable with `:-`. */
  datatype Result<+T, +E> = Ok(value: T) | Err(error: E) {
    predicate IsFailure() {
      Err?
    }

    function PropagateFailure<U>(): Result<U, E>
      requires Err?
    {
      Err(error)
    }

    function Extract(): T
      requires Ok?
    {
      value
    }
  }
}
