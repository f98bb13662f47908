/** Optional values and the outcome of an operation that may raise. */
module Results {

  /** Python's `None` or a value. */
  datatype Option<+T> = None | Some(value: T)

  /** A returned value, or the exception the operation raises instead. */
  datatype Result<+T, +E> = Ok(value: T) | Err(error: E)
}
