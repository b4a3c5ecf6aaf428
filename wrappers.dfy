/** Option and Result, the shapes Go's nil-able pointers and (value, error) pairs take in this model. */
module Wrappers {

  /** A Go `error` value, represented by its message. */
  type Error = string

  datatype Option<+T> = None | Some(value: T)

  datatype Result<+T> = Success(value: T) | Failure(error: Error) {

    /** The error a call returning this result reports: nil on success. */
    function Err(): Option<Error>
    {
      if Failure? then Some(error) else None
    }
  }
}
