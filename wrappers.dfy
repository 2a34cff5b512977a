/** Failure-carrying return values shared by the store, the monitor and the API guard. */
module Wrappers {

  /** A value that may be absent (a TypeScript `T | null`). */
  datatype Option<+T> = None | Some(value: T)

  /** The outcome of a store call: a value, or the message of the rejected promise. */
  datatype Result<+T> = Success(value: T) | Failure(error: string)
}
