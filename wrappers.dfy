/** The optional-value and success-or-error datatypes shared by every module of the model. */
module Wrappers {

  /** A value that may be absent; `None` also stands for JavaScript's `null`. */
  datatype Option<+T> = None | Some(value: T)

  /** The settled state of a promise: fulfilled with a value or rejected with an error. */
  datatype Result<+T, +E> = Success(value: T) | Failure(error: E)
}
