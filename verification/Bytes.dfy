/** Bytes as natural numbers. */
module Bytes {
  type Byte = n: nat | n < 256
}
