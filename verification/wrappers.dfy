/** The option and result wrappers shared by every module of the model. */
module Wrappers {

  /** A value that may be absent (`undefined`/`null` in the source). */
  datatype Option<+T> = None | Some(value: T)

  /** The outcome of a call that either returns a value or throws with a message. */
  datatype Result<+R> = Success(value: R) | Failure(error: string)

  /** The outcome of a call that returns nothing useful or throws with a message. */
  datatype Attempt = Done | Threw(message: string)
}
