/** Octets, and the few facts about sequences that several components share. */
module Bytes {
  type byte = b: int | 0 <= b < 256

  datatype Option<+T> = None | Some(value: T)

  /** A C `char` holding octet `b`, on a platform where `char` is signed. */
  function SignedChar(b: byte): int {
    if b < 128 then b else b - 256
  }
}
