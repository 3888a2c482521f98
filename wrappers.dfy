/** Option and Result, used for the nullable fields of a job and for the
    HTTP errors the endpoints raise. */
module Wrappers {

  datatype Option<+T> = None | Some(value: T)

  datatype Result<+T, +E> = Success(value: T) | Failure(error: E)
}
