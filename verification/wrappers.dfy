/** Failure-carrying datatypes shared by the rest of the model. */
module Wrappers {

  /** An optional value; stands for a nil pointer or a missing map entry. */
  datatype Option<+T> = None | Some(value: T)

  /** The value of a Go `(T, error)` pair: either a value or an error message. */
  datatype Result<+T> = Success(value: T) | Failure(error: string)
}
