/** Failure-carrying wrappers: an absent C string or an exception becomes a value. */
module Results {

  /** A value that may be absent (a null `const char *`, a lookup that finds nothing). */
  datatype Option<+T> = None | Some(value: T)

  /** The outcome of an operation that can throw: its value, or the error it raises. */
  datatype Result<+T, +E> = Ok(value: T) | Err(error: E)
}
