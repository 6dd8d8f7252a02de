/** Optional values and results, the two shapes the model uses in place of
    Python's `None` and of an aborted request. */
module Wrappers {

  datatype Option<+T> = None | Some(value: T)

  datatype Result<+R, +E> = Success(value: R) | Failure(error: E)
}
