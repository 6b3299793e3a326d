/** Failure-carrying results. The Go program reports a bad event by panicking;
    the model returns one of these instead, so that the failure is a value a
    caller can inspect. */
module Wrappers {

  /** A computed value, or the error that stopped the computation. */
  datatype Result<+T, +E> = Ok(value: T) | Err(error: E)

  /** Success without a value, or the error that stopped the computation. */
  datatype Outcome<+E> = Pass | Fail(error: E)
}
