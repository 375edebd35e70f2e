/** Optional values and results, standing for `undefined`/`null` returns and thrown errors. */
module Options {

  /** A value that may be absent (`T | undefined` or `T | null`). */
  datatype Option<+T> = None | Some(value: T)

  /** The outcome of an operation that either returns a value or throws an error. */
  datatype Result<+T, +E> = Ok(value: T) | Err(error: E)
}
