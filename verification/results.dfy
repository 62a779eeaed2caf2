/** Optional values and success-or-error results shared by every module of the model. */
module Results {

  /** A value that may be absent: Python's `None`, a nullable column, a JavaScript `null`. */
  datatype Option<+T> = None | Some(value: T)

  /** The outcome of an endpoint: a value, or the error it raises instead. */
  datatype Result<+R, +E> = Success(value: R) | Failure(error: E)
}
