/** Option and Result wrappers shared by every module of the storefront model. */
module Base {

  datatype Option<+T> = None | Some(value: T)

  /** The outcome of an operation that may fail with a value of type E. */
  datatype Result<+T, +E> = Ok(value: T) | Err(error: E)
}
