/** Option and Result wrappers shared by the rest of the model. */
module Results {

  /** A value that may be absent. */
  datatype Option<+T> = None | Some(value: T)

  /** The value a computation produced, or the error it stopped with. */
  datatype Result<+T, +E> = Success(value: T) | Failure(error: E)
}
