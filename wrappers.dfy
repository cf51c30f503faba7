/** Failure-compatible result types shared by the three models. */
module Wrappers {

  /** A value that may be absent (an optional index, for instance). */
  datatype Option<+T> = None | Some(value: T)

  /** The value an operation computes, or the error it raises. */
  datatype Result<+T, +E> = Success(value: T) | Failure(error: E)

  /** An operation that computes nothing but may raise an error. */
  datatype Outcome<+E> = Pass | Fail(error: E)

  function Min(a: real, b: real): real
  {
    if a <= b then a else b
  }

  function Max(a: real, b: real): real
  {
    if a >= b then a else b
  }
}
