/** Absent values and fallible results, as JavaScript's `undefined` and thrown errors appear in the model. */
module Wrappers {

  /** `None` plays the role of JavaScript's `undefined`. */
  datatype Option<+T> = None | Some(value: T)

  /** The outcome of a call that may throw: `Err` carries the thrown value. */
  datatype Result<+T, +E> = Ok(value: T) | Err(error: E)
}
