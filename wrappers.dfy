/** Option and Result, the two failure-carrying shapes the model needs:
    a JavaScript value that may be `null`, and an operation that may throw. */
module Wrappers {

  datatype Option<+T> = None | Some(value: T)

  /** `Failure(error)` stands for a thrown `Error` whose message is `error`. */
  datatype Result<+R, +E> = Success(value: R) | Failure(error: E)
}
