/** Option and Result, the two failure-carrying shapes the model uses. */
module Maybe {

  /** Ruby's `nil` versus a present value. */
  datatype Option<+T> = None | Some(value: T)

  /** A value, or the error a Ruby exception would carry. */
  datatype Result<+T, +E> = Ok(value: T) | Err(error: E)
}
