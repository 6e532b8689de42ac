/** Optional values and success/failure outcomes used throughout the model. */
module Results {

  /** A value that may be absent, such as an interval that is not emitted. */
  datatype Option<+T> = None | Some(value: T)

  /** The outcome of an operation that can raise: `Failure` carries what the
      raised error names (for a failed table lookup, the missing key). */
  datatype Result<+T, +E> = Success(value: T) | Failure(error: E)
}
