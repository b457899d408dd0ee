/** Optional values and success/error results shared by every module of the model. */
module Common {

  /** A value that may be absent: JavaScript's `null`/`undefined`, a missing key, an absent JSON field. */
  datatype Option<+T> = None | Some(value: T)

  /** The outcome of an operation that either returns a value or raises an error. */
  datatype Result<+T, +E> = Ok(value: T) | Err(error: E)
}
