/** Option and Result datatypes shared by the other modules. */
module Wrappers {

  /** An optional value: `None` where the bot produces nothing. */
  datatype Option<+T> = None | Some(value: T)

  /** The outcome of a promise chain: a value, or the error that rejected it. */
  datatype Result<+R, +E> = Success(value: R) | Failure(error: E)
}
