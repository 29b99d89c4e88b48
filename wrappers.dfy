/** Option and Result, as used for JavaScript's `undefined` and for thrown errors. */
module Wrappers {

  /** `None` stands for a JavaScript `undefined` (or `null`) value. */
  datatype Option<+T> = None | Some(value: T)

  /** `Failure` carries the `message` of an error that JavaScript code would throw. */
  datatype Result<+R> = Success(value: R) | Failure(error: string)
}
