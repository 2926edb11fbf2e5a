/** Optional values and results with an error, shared by the other modules. */
module Results {

  /** A value that may be missing: no goal feedback, a text that does not parse, an undefined per-household figure. */
  datatype Option<+T> = None | Some(value: T)

  /** The outcome of an operation that either yields a value or fails with an error. */
  datatype Result<+T, +E> = Ok(value: T) | Err(error: E)
}
