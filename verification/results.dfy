/** Outcomes of Python calls that may raise an exception. */
module Results {

  /** A value, or the message of the exception raised instead (`str(e)`). */
  datatype Result<T> = Ok(value: T) | Err(error: string)

  /** A value that may be absent (`None` in Python). */
  datatype Option<T> = None | Some(value: T)

  /** A call run for its effect: it returned, or it raised with a message. */
  datatype Outcome = Pass | Raise(error: string)
}
