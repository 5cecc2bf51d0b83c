/** Failure-carrying values for the operations that raise in the source. */
module Results {

  datatype Option<+T> = None | Some(value: T)

  /** `Ok` carries the value an operation returns, `Err` the exception it raises. */
  datatype Result<+T, +E> = Ok(value: T) | Err(error: E)
}
