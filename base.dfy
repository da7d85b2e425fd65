/** The Option and Result types shared by the ingestion and retrieval services. */
module Base {

  datatype Option<+T> = None | Some(value: T)

  /** A call that either returns a value or throws; the error carries the exception's message. */
  datatype Result<+T, +E> = Success(value: T) | Failure(error: E)
}
