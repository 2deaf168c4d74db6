/** The outcome of an estimator call, shared by the three variants. */
module Outcome {
  /** A computed value, or the exception that interrupted the computation. */
  datatype Result<+T, +E> = Ok(value: T) | Err(error: E)
}
