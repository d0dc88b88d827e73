/** Failure-carrying datatypes shared by the validator and both renderers. */
module Results {

  /** A value that may be absent: a missing dictionary key or a key bound to `None`. */
  datatype Option<+T> = None | Some(value: T)

  /** Either a successful value or the error that stopped the computation. */
  datatype Result<+T, +E> = Success(value: T) | Failure(error: E)
}
