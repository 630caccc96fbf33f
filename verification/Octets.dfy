/** Byte strings. */
module Octets {
  type Byte = b: nat | b < 256
  type Bytes = seq<Byte>
}
