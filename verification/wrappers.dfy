/** Optional values and results with an error, used where the Python code returns `None`
    or raises an exception that a caller catches. */
module Wrappers {

  datatype Option<+T> = None | Some(value: T)

  datatype Result<+R, +E> = Success(value: R) | Failure(error: E)
}
