/** Small shared types: an optional value and a byte. */
module Wrappers {

  /** A value that may be absent (JavaScript's `undefined`, or a
      configuration entry that is not set). */
  datatype Option<+T> = None | Some(value: T)

  /** One byte of a Node.js `Buffer`. */
  newtype Byte = b: int | 0 <= b < 256
}
