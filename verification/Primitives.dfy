/** Machine words, results and the hash functions the protocol relies on. */
module Primitives {

  type Byte = n: nat | n < 0x100
  type U64 = n: nat | n < 0x1_0000_0000_0000_0000
  type U128 = n: nat | n < 0x1_0000_0000_0000_0000_0000_0000_0000_0000

  /** 20-byte account and 32-byte word, as the numbers their big-endian bytes denote. */
  type Address = n: nat | n < 0x1_0000_0000_0000_0000_0000_0000_0000_0000_0000_0000
  type Word = n: nat |
    n < 0x1_0000_0000_0000_0000_0000_0000_0000_0000_0000_0000_0000_0000_0000_0000_0000_0000

  const U64_MAX: U64 := 0xFFFF_FFFF_FFFF_FFFF
  const WORD_MAX: Word :=
    0xFFFF_FFFF_FFFF_FFFF_FFFF_FFFF_FFFF_FFFF_FFFF_FFFF_FFFF_FFFF_FFFF_FFFF_FFFF_FFFF

  datatype Option<+T> = None | Some(value: T)

  datatype Result<+T, +E> = Ok(value: T) | Err(error: E)

  // The hash functions and public-key recovery are not interpreted: every
  // statement about them holds whatever they compute.
  const SHA256: Word -> Word
  const KECCAK256: seq<Byte> -> Word
  const RECOVER: (Word, Word, Word, Byte) -> Option<Address>

  /** `u64::saturating_add`. */
  function SatAdd(a: U64, b: U64): (r: U64)
    ensures a <= r && b <= r
    ensures a + b <= U64_MAX <==> r == a + b && a + b <= U64_MAX
  {
    if a + b <= U64_MAX then a + b else U64_MAX
  }
}
