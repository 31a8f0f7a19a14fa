/** Option and Result, the stand-ins for Ruby's nil and for raised exceptions. */
module Results {

  /** A value that may be nil. */
  datatype Option<T> = None | Some(value: T)

  /** Either a value or the error that was raised instead. */
  datatype Result<T, E> = Ok(value: T) | Err(error: E)
}
