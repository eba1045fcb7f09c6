/** Small failure-carrying wrappers shared by every module. */
module Wrappers {

  /** An optional value. */
  datatype Option<+T> = None | Some(value: T)

  /** The outcome of a call into an external library that may throw:
      `Failure` stands for "an exception escaped the call". */
  datatype Result<+T> = Ok(value: T) | Failure
}
