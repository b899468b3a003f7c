/** The outcome of a step that the browser would abort with an exception. */
module Results {
  datatype Result<T, E> = Ok(value: T) | Err(error: E)

  /** A JavaScript value that may be `null` in the feed. */
  datatype Option<T> = None | Some(value: T)
}
