/** Failure-compatible result types shared by the resolver and the keeper. */
module Wrappers {

  datatype Option<T> = None | Some(value: T)

  /** A value or an error, as a Go `(T, error)` pair returns it. */
  datatype Result<T, E> = Ok(value: T) | Err(error: E)

  /** The outcome of an operation that returns only an `error`. */
  datatype Outcome<E> = Pass | Fail(error: E)
}
