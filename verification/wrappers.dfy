// Failure-compatible results shared by the models of the operator, the gRPC
// registry and the command line tool.
module Wrappers {
  datatype Option<+T> = None | Some(value: T)

  datatype Result<+T, +E> = Success(value: T) | Failure(error: E)
}
