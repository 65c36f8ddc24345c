/** Failure-carrying values that stand for the exceptions of the modelled code. */
module Results {

  /** A value that may be missing: a null reference, or a call that raised. */
  datatype Option<+T> = None | Some(value: T)

  /** A value, or the error that the modelled call raised instead. */
  datatype Result<+T, +E> = Ok(value: T) | Err(error: E)

  /** Success or failure of a call whose value is not used. */
  datatype Outcome<+E> = Pass | Fail(error: E)
}
