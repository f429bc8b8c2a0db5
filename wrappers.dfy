/** Optional values and results with an error message, as the JavaScript source
    uses `undefined` / `null` and thrown `Error`s. */
module Wrappers {

  /** A value that may be absent (`undefined` or `null` in the source). */
  datatype Option<+T> = None | Some(value: T)

  /** The outcome of a call that may throw an `Error` carrying a message. */
  datatype Result<+T> = Success(value: T) | Failure(error: string)
}
