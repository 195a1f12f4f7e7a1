/** Option and Outcome: the two shapes the core's results take. */
module Wrappers {

  /** A value that may be absent (`undefined`, `NaN`, a missing key). */
  datatype Option<T> = None | Some(value: T)

  /** The result of a call that either returns a value or throws an error carrying `message`. */
  datatype Outcome<T> = Ok(value: T) | Err(message: string)
}
