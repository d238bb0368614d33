/** Option and Result values used wherever the source has a missing value or a thrown error. */
module Results {

  datatype Option<+T> = None | Some(value: T)

  /** Ok carries a value; Err carries the message of the error the source would throw. */
  datatype Result<+T, +E> = Ok(value: T) | Err(error: E)
}
