/** Failure-carrying wrappers used throughout the model. */
module Outcomes {

  datatype Option<T> = None | Some(value: T)

  /** The value of a handler or helper, or the error it throws. */
  datatype Result<T, E> = Success(value: T) | Failure(error: E)

  /** The result of a check that either passes or throws. */
  datatype Outcome<E> = Pass | Fail(error: E)
}
