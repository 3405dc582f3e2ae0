/** Failure-carrying values shared by the handler model: an Option for
    Python's `dict.get` (which yields None for a missing key), the Python
    exceptions the handler can raise, and a Result that carries either a
    value or one of those exceptions. */
module Wrappers {

  /** An octet of a byte string (`bytes` in Python). */
  newtype byte = x: int | 0 <= x < 256

  datatype Option<+T> = None | Some(value: T)

  /** The exceptions the handler's code can raise, by Python class. */
  datatype Error =
    | ValueError(found: nat)          // tuple unpacking of a list whose length is `found`, not 2
    | IndexError                      // subscript past the end of a list
    | TypeError                       // an operation applied to None
    | AttributeError                  // a method called on None
    | ProcessError(stderr: seq<byte>) // `raise Exception(stderr)` after the external run

  datatype Result<+T> = Ok(value: T) | Err(error: Error)
}
