/** Failure-carrying results shared by the modules of the game model. */
module Common {

  /** A value that may be missing: Java's `null` for a String that was not read. */
  datatype Option<T> = None | Some(value: T)

  /** The outcome of a call that may throw: `Err` carries the exception's message. */
  datatype Result<T> = Ok(value: T) | Err(message: string)
}
