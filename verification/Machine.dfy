/**
  The fixed-width integers of the C++ sources, byte strings, and the error values that stand
  for the exceptions the sources throw.
 */
module Machine {

  type byte = b: int | 0 <= b < 0x100
  type u16 = n: int | 0 <= n < 0x1_0000
  type u32 = n: int | 0 <= n < 0x1_0000_0000
  type u64 = n: int | 0 <= n < 0x1_0000_0000_0000_0000

  type Bytes = seq<byte>

  /** A BLAKE2b digest: HASH_SIZE is 64. */
  type Digest = s: Bytes | |s| == 64 witness seq(64, _ => 0)

  type Uuid = s: Bytes | |s| == 16 witness seq(16, _ => 0)

  const UINT16_MAX: u16 := 0xFFFF
  const UINT64_MAX: u64 := 0xFFFF_FFFF_FFFF_FFFF

  datatype Option<+T> = None | Some(value: T)

  /** The exceptions thrown by the modelled code. */
  datatype Error = RangeError | LengthError | UnsupportedType | LimitExceeded

  datatype Result<+T> = Ok(value: T) | Err(error: Error)

  /** Implicit conversion to `uint16_t`, as happens when an index is passed to a message builder. */
  function Narrow16(n: nat): u16 {
    n % 0x1_0000
  }

  /** Implicit conversion to `uint32_t`. */
  function Narrow32(n: nat): u32 {
    n % 0x1_0000_0000
  }

  function Max(a: int, b: int): int {
    if a < b then b else a
  }

  function Min(a: int, b: int): int {
    if a < b then a else b
  }

  /** `n` zero bytes. */
  function Zeros(n: nat): (r: Bytes)
    ensures |r| == n
  {
    seq(n, _ => 0)
  }
}
