/** Option and Result values shared by the whole model. */
module Results {

  datatype Option<+T> = None | Some(value: T)

  datatype Result<+T, +E> = Ok(value: T) | Err(error: E)

  /** The unit value `()` of the source. */
  datatype Unit = Unit
}
