/** The two outcome types every other module uses. */
module Wrappers {

  datatype Option<+T> = None | Some(value: T)

  /** A failure-compatible result: `:-` propagates the error. */
  datatype Result<+T, +E> = Ok(value: T) | Err(error: E) {
    predicate IsFailure() {
      Err?
    }

    function PropagateFailure<U>(): (r: Result<U, E>)
      requires Err?
    {
      Err(error)
    }

    function Extract(): (r: T)
      requires Ok?
    {
      value
    }
  }
}
