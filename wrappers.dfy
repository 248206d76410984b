/** Option and Result, the two failure-carrying shapes used across the model. */
module Wrappers {

  /** A value that may be absent: JavaScript `null` / `undefined`, a Go nil pointer. */
  datatype Option<+T> = None | Some(value: T)

  /** The outcome of an operation that can fail: a returned value or a thrown / returned error. */
  datatype Result<+T, +E> = Success(value: T) | Failure(error: E)

  /** An outcome that carries no value on success: a validator that returns or throws. */
  datatype Outcome<+E> = Pass | Fail(error: E)
}
