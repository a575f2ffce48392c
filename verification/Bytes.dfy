// Bytes as plain numbers.
module Bytes {
  type byte = x: int | 0 <= x < 256
}
