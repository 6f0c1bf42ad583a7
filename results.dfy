/** A failure-compatible result: the success value, or the reason the computation stopped. */
module Results {

  datatype Result<+T, +E> = Ok(value: T) | Err(error: E)
}
