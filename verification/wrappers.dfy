/** Optional values and results used throughout the model: `Option` stands for
    a Java reference that may be null, `Result` for a computation that may end
    in an exception. */
module Wrappers {

  /** A value that may be absent (a nullable reference). */
  datatype Option<+T> = None | Some(value: T)

  /** Either a normal result or the fault that aborted the computation. */
  datatype Result<+T, +E> = Success(value: T) | Failure(error: E)
}
