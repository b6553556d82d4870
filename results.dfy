/** Failure-compatible wrappers shared by the modules of this model: a raised
    Python exception becomes an `Err`/`Fail` value instead of a precondition. */
module Results {

  datatype Option<+T> = None | Some(value: T)

  datatype Result<+T, +E> = Ok(value: T) | Err(error: E)

  /** The outcome of a call that returns nothing on success (Python's `None`). */
  datatype Outcome<+E> = Pass | Fail(error: E)
}
