/** Option and Result values used in place of JavaScript's `null` and thrown errors. */
module Wrappers {

  /** `None` stands for JavaScript's `null` (or, for numbers, `NaN`). */
  datatype Option<+T> = None | Some(value: T)

  /** A computation that either returns a value or throws an error. */
  datatype Result<+R, +E> = Success(value: R) | Failure(error: E)
}
