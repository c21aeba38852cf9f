/** Failure-carrying results. The application signals every failure with one
    exception kind that carries a human-readable message; here that exception
    becomes the Err / Fail case of a value. */
module Results {

  datatype Option<+T> = None | Some(value: T)

  /** The value of an operation that either returns normally or fails with a
      message. */
  datatype Result<+T> = Ok(value: T) | Err(message: string)

  /** The value of an operation that returns nothing and may fail. */
  datatype Outcome = Pass | Fail(message: string)
}
