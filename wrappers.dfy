/** Option and Result, used for Python's "no value" and for the exceptions the
    modelled code lets escape. */
module Wrappers {

  datatype Option<+T> = None | Some(value: T)

  datatype Result<+T, +E> = Success(value: T) | Failure(error: E)

  /** The Python exceptions the modelled code can raise and not catch. */
  datatype PyError = KeyError | IndexError | ValueError
}
