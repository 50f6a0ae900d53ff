/** Bytes, as the numbers they are. */
module Octets {
  type byte = n: nat | n < 256
}
