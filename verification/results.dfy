/** Success/failure wrappers shared by every stage of the loaders. */
module Results {

  /** An optional value: Go's nil pointer versus a present one. */
  datatype Option<+T> = None | Some(value: T)

  /** A value or an error, the model of Go's `(value, err)` return pairs. */
  datatype Result<+T, +E> = Ok(value: T) | Err(error: E)
}
