/** Option and Result, the failure-carrying values the rest of the model returns
    where the Python code returns None or raises. */
module Wrappers {
  datatype Option<+T> = None | Some(value: T)

  datatype Result<+T, +E> = Success(value: T) | Failure(error: E)
}
