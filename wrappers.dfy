/** Small failure-carrying datatypes shared by the configuration builder and the handler. */
module Wrappers {

  /** A value that may be missing: Go's nil pointer, nil map or nil error. */
  datatype Option<+T> = None | Some(value: T)

  /** The outcome of a library call that may fail with a message. */
  datatype Result<+T> = Ok(value: T) | Err(msg: string)
}
