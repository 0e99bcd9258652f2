/** Vocabulary shared by every module of the project. */
module Base {

  datatype Option<+T> = None | Some(value: T)

  type byte = x: int | 0 <= x < 256
  type Bytes = seq<byte>
  type Name = string

  const U32: nat := 0x1_0000_0000
  const U64: nat := 0x1_0000_0000_0000_0000

  /** A 32-bit version number counts modulo 2^32. */
  lemma CountBumped(n: nat)
    ensures (n % U32 + 1) % U32 == (n + 1) % U32
  {}
}
