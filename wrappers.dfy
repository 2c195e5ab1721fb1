/** Option and Result, used for the values the worker may find absent
    (a missing `type` or `message`, an unmatched route) and for the
    failure of the upstream fetch. */
module Wrappers {

  datatype Option<+T> = None | Some(value: T)

  datatype Result<+R, +E> = Success(value: R) | Failure(error: E)
}
