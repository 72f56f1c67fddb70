/** Octets, as the `Buffer` values of Node.js hold them. */
module Bytes {
  newtype Byte = x: int | 0 <= x < 256
}
