/** Failure-carrying datatypes shared by the model. */
module Wrappers {

  /** A value that may be absent. For a parsed number, `None` stands for
      JavaScript's `NaN`: the field was missing, empty or not numeric. */
  datatype Option<+T> = None | Some(value: T)

  /** The outcome of an operation that can be refused with a message. */
  datatype Result<+R, +E> = Success(value: R) | Failure(error: E)
}
