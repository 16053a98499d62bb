// Option and Result, for absent values and for the error paths the source reports by
// raising an exception.
module Wrappers {

  datatype Option<T> = None | Some(value: T)

  datatype Result<T> = Success(value: T) | Failure(error: string)
}
