/** Small failure-compatible datatypes shared by the model. */
module Wrappers {

  /** A value that may be absent: JavaScript's `undefined` on an optional-chained path. */
  datatype Option<+T> = None | Some(value: T)

  /** The outcome of an awaited step: a value, or an exception that unwinds to the nearest `catch`. */
  datatype Outcome<+T> = Ok(value: T) | Fail
}
