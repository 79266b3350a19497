/** Option and Result, used for the lookups that may fail and for the
    exceptions the service throws. */
module Wrappers {

  datatype Option<+T> = None | Some(value: T)

  datatype Result<+R, +E> = Success(value: R) | Failure(error: E)
}
