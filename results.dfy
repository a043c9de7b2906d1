/** Failure-carrying values for the outcomes of the cloud calls the handler makes. */
module Results {

  /** An optional value; `Some(e)` is how a failed call reports its error. */
  datatype Option<+T> = None | Some(value: T)

  /** The outcome of a query: a value, or the error the service returned. */
  datatype Result<+T, +E> = Ok(value: T) | Err(error: E)
}
