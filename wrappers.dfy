/** Small failure-carrying datatypes shared by the backend model. */
module Wrappers {

  /** Python's `None` or a present value. */
  datatype Option<+T> = None | Some(value: T)

  /** The outcome of an endpoint: a JSON body, or an HTTP error status with its message. */
  datatype Reply<+T> = Success(value: T) | Failure(status: nat, error: string)
}
