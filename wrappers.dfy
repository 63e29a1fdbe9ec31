/** Option and Result, used for the lookups that may find nothing and for the
    exceptions of the Python code. */
module Wrappers {

  datatype Option<+T> = None | Some(value: T)

  datatype Result<+R, +E> = Success(value: R) | Failure(error: E)
}
