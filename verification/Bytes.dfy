// Bytes of files and of UTF-8 text.
module Bytes {

  newtype byte = x: int | 0 <= x < 256

  const NEWLINE: byte := 10
}
