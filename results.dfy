/** Success/failure wrappers standing in for the `Option` and `Result`
    values the program returns. */
module Results {

  /** An optional value, as returned by a search that may find nothing. */
  datatype Option<T> = None | Some(value: T)

  /** The value of a fallible operation, or the error it failed with. */
  datatype Result<T, E> = Ok(value: T) | Err(error: E)
}
