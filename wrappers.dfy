/** Option and Result, for the optional protobuf fields and the `Try`/`Future` failures. */
module Wrappers {

  datatype Option<+T> = None | Some(value: T)

  datatype Result<+R, +E> = Success(value: R) | Failure(error: E)
}
