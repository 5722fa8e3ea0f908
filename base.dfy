/** Failure-carrying values shared by every component of the dashboard model. */
module Base {

  /** A value that may be absent: JavaScript's `null` / `undefined`. */
  datatype Option<+T> = None | Some(value: T)

  /** The outcome of an operation that can throw: `Err` carries the `Error`'s message. */
  datatype Result<+T> = Ok(value: T) | Err(message: string)
}
