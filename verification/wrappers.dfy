/** Option and Result, used for the optional parts of an extractor's
    response and for the agent constructor's error path. */
module Wrappers {

  datatype Option<+T> = None | Some(value: T)

  datatype Result<+R, +E> = Success(value: R) | Failure(error: E)
}
