/**
  Failure-carrying datatypes shared by the decision and registry models.
  - Option<T>: a value that may be absent (an unset callback, an unsettled promise).
  - Result<T, E>: either the new value of a call or the error it throws.
 */
module Wrappers {

  datatype Option<+T> = None | Some(value: T)

  datatype Result<+T, +E> = Success(value: T) | Failure(error: E)
}
