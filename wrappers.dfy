/** Values shared by the two core files: optional values, JavaScript `Error`
    objects and the outcome of a call that may throw or reject. */
module Wrappers {

  /** A value that may be absent (`null` / `undefined` in the source). */
  datatype Option<+T> = None | Some(value: T)

  /** A JavaScript `Error` object, reduced to its message. */
  datatype Error = Error(message: string)

  /** The outcome of an awaited call: its value, or the error it threw or rejected with. */
  datatype Result<+T> = Success(value: T) | Failure(error: Error)
}
