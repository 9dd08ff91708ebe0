/** Bytes, as the GDB stub and the memory functions handle them. */
module Bytes {

  newtype byte = x: int | 0 <= x < 256
}
