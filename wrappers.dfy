/** Option and Result values standing for Go's nil pointers and
    (value, error) pairs. An error carries the message Go's fmt.Errorf
    would have produced. */
module Wrappers {

  datatype Option<+T> = None | Some(value: T)

  datatype Result<+T> = Ok(value: T) | Err(message: string)

  /** A Go `error` return on its own: nil, or an error with a message. */
  datatype Status = Success | Failure(message: string)
}
