/** Failure-carrying results shared by the stack, the tokenizer and the evaluator. */
module Wrappers {

  /** Either a value or an error. */
  datatype Result<+R, +E> = Success(value: R) | Failure(error: E) {
    predicate IsFailure() {
      Failure?
    }

    function PropagateFailure<U>(): Result<U, E>
      requires Failure?
    {
      Failure(error)
    }

    function Extract(): R
      requires Success?
    {
      value
    }
  }

  /** Either a value or nothing. */
  datatype Option<+T> = None | Some(value: T)
}
