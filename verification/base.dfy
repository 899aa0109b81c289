/** Small failure-carrying datatypes shared by the whole model: Kotlin's
    nullable `T?` becomes `Option<T>`, and an operation that throws becomes
    one that returns `Result<T, E>`. */
module Base {

  /** A value that may be absent (Kotlin `T?`). */
  datatype Option<+T> = None | Some(value: T)

  /** The outcome of an operation that throws in the source. */
  datatype Result<+T, +E> = Ok(value: T) | Err(error: E)
}
