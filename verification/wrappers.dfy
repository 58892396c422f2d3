/** Failure-carrying datatypes shared by the whole model. */
module Wrappers {

  /** A value that may be absent: JavaScript's `null`/`undefined`. */
  datatype Option<+T> = None | Some(value: T)

  /** The outcome of an operation that may throw: `Failure` carries the
      thrown error's `message`. */
  datatype Result<+R, +E> = Success(value: R) | Failure(error: E)
}
