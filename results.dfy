/** Option and Result values used in place of Java's null returns and thrown exceptions. */
module Results {

  datatype Option<+T> = None | Some(value: T)

  /** The outcome of an evaluation that either yields a value or throws a classified fault. */
  datatype Result<+T, +E> = Success(value: T) | Failure(error: E)
}
