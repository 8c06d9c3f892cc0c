/** The two failure-carrying types used throughout the model. */
module Results {

  datatype Option<+T> = None | Some(value: T)

  /** A Go `(value, error)` pair; the error's text carries no behaviour and is dropped. */
  datatype Result<+T> = Ok(value: T) | Err
}
