/** The outcome of an operation that may raise an exception. */
module Results {

  /** Either the value the operation returned or the exception it raised (or rethrew). */
  datatype Result<+T, +E> = Success(value: T) | Failure(error: E)
}
