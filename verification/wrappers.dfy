/** Failure-carrying results shared by the distro modules. */
module Wrappers {

  /** Either a value, or the message of the error that the JavaScript code throws. */
  datatype Result<+T> = Ok(value: T) | Err(message: string)
}
