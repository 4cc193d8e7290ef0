/** Option, Result and the byte type shared by the other modules. */
module Wrappers {

  /** A value that may be absent (JavaScript's `undefined`). */
  datatype Option<+T> = None | Some(value: T)

  /** The settled value of a promise: resolved with a value or rejected with a message. */
  datatype Result<+R, +E> = Success(value: R) | Failure(error: E)

  /** One byte of a Node.js `Buffer`. */
  type Byte = b: int | 0 <= b < 256
}
