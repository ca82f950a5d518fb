/** Option and Result, the two failure-carrying shapes the model uses in place
    of Go's nil references and `(value, error)` pairs. */
module Wrappers {

  datatype Option<+T> = None | Some(value: T)

  /** A Go `(value, error)` return: `Err` carries the error's message. */
  datatype Result<+T> = Ok(value: T) | Err(msg: string)
}
