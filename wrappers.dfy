/** Option and Result datatypes shared by both modules. */
module Wrappers {

  /** A value that may be absent (JavaScript's `undefined`/`null`). */
  datatype Option<+T> = None | Some(value: T)

  /** The settled outcome of an asynchronous call: a value, or an error. */
  datatype Result<+R, +E> = Success(value: R) | Failure(error: E)
}
