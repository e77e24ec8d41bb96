/** Option and Result values used to model JavaScript's missing arguments and thrown or rejected errors. */
module Wrappers {

  /** A value that may be absent; each use says which JavaScript values count as absent. */
  datatype Option<+T> = None | Some(value: T)

  /** The outcome of an operation: a resolved value or the error it threw or rejected with. */
  datatype Result<+R, +E> = Success(value: R) | Failure(error: E)
}
