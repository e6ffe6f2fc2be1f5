/** Failure-carrying values used across the model: a header field that may be
    unreadable, and an operation that either succeeds or raises. */
module Results {
  datatype Option<T> = None | Some(value: T)

  datatype Result<T, E> = Ok(value: T) | Err(error: E)
}
