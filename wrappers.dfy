/** Value wrappers shared by the registry and the watchdog models. */
module Wrappers {

  /** A nullable value: `None` plays the role of Go's `nil`. */
  datatype Option<+T> = None | Some(value: T)

  /** An error returned to the caller, standing for Go's `error` interface. */
  datatype Error = Error(message: string)

  /** A Go `(value, error)` pair where exactly one of the two is meaningful. */
  datatype Result<+T> = Success(value: T) | Failure(error: Error)
}
