/** Absent-or-present values and success-or-failure values, standing in for
    Java's null returns and thrown exceptions. */
module Results {

  /** A value that may be missing (a Java reference that may be null). */
  datatype Option<+T> = None | Some(value: T)

  /** The outcome of an operation that either produces a value or fails. */
  datatype Result<+T, +E> = Ok(value: T) | Err(error: E)
}
