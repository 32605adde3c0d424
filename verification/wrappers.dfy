/** Option and Result: the two failure-carrying datatypes the model uses in
    place of Python's `None` and raised exceptions. */
module Wrappers {

  /** A value that may be missing (`None` in Python). */
  datatype Option<+T> = None | Some(value: T)

  /** Either a computed value or the error a Python function would raise. */
  datatype Result<+T, +E> = Success(value: T) | Failure(error: E)
}
