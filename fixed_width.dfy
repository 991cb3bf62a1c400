/**
 * Fixed-width unsigned integers of Go and Rust, with their wrap-around made
 * explicit, and the little- and big-endian byte encodings used on the wire.
 */
module FixedWidth {
  const U8_MODULUS: int := 0x100
  const U16_MODULUS: int := 0x1_0000
  const U32_MODULUS: int := 0x1_0000_0000
  const U64_MODULUS: int := 0x1_0000_0000_0000_0000

  type u8 = x: int | 0 <= x < 0x100
  type u16 = x: int | 0 <= x < 0x1_0000
  type u32 = x: int | 0 <= x < 0x1_0000_0000
  type u64 = x: int | 0 <= x < 0x1_0000_0000_0000_0000
  type i64 = x: int | -0x8000_0000_0000_0000 <= x < 0x8000_0000_0000_0000

  /** The uint64 a Go or Rust expression evaluates to: the value modulo 2^64. */
  function WrapU64(x: int): (r: u64)
    ensures 0 <= x < U64_MODULUS ==> r == x
  {
    x % U64_MODULUS
  }

  /** The int64 (two's complement) a Go expression evaluates to. */
  function WrapI64(x: int): (r: i64)
    ensures -0x8000_0000_0000_0000 <= x < 0x8000_0000_0000_0000 ==> r == x
  {
    var m := x % U64_MODULUS;
    if m < 0x8000_0000_0000_0000 then m else m - U64_MODULUS
  }

  /** `a + b` on uint64: wraps modulo 2^64. */
  function AddU64(a: u64, b: u64): (r: u64)
    ensures a + b < U64_MODULUS ==> r == a + b
    ensures a + b >= U64_MODULUS ==> r == a + b - U64_MODULUS
  {
    if a + b < U64_MODULUS then a + b else a + b - U64_MODULUS
  }

  /** `a + b` on uint32: wraps modulo 2^32. */
  function AddU32(a: u32, b: u32): (r: u32)
    ensures a + b < U32_MODULUS ==> r == a + b
    ensures a + b >= U32_MODULUS ==> r == a + b - U32_MODULUS
  {
    if a + b < U32_MODULUS then a + b else a + b - U32_MODULUS
  }

  function MaxU32(a: u32, b: u32): (r: u32)
    ensures r >= a && r >= b && (r == a || r == b)
  {
    if a >= b then a else b
  }

  function Pow256(n: nat): (r: nat)
    ensures r >= 1
  {
    if n == 0 then 1 else 256 * Pow256(n - 1)
  }

  /** The `n` low bytes of `x`, least significant first (`to_le_bytes`). */
  function LeBytes(x: nat, n: nat): (r: seq<u8>)
    ensures |r| == n
  {
    if n == 0 then [] else [x % 256] + LeBytes(x / 256, n - 1)
  }

  function LeValue(s: seq<u8>): nat
  {
    if s == [] then 0 else s[0] + 256 * LeValue(s[1..])
  }

  /** The `n` low bytes of `x`, most significant first (`to_be_bytes`). */
  function BeBytes(x: nat, n: nat): (r: seq<u8>)
    ensures |r| == n
  {
    if n == 0 then [] else BeBytes(x / 256, n - 1) + [x % 256]
  }

  function BeValue(s: seq<u8>): nat
  {
    if s == [] then 0 else 256 * BeValue(s[..|s| - 1]) + s[|s| - 1]
  }

  /** Decoding little-endian bytes gives back any value that fits in n bytes. */
  lemma {:induction false} LeRoundTrip(x: nat, n: nat)
    requires x < Pow256(n)
    ensures LeValue(LeBytes(x, n)) == x
  {
    if n > 0 {
      var s := LeBytes(x, n);
      assert s[1..] == LeBytes(x / 256, n - 1);
      ShiftOutByte(x, n);
      LeRoundTrip(x / 256, n - 1);
    }
  }

  /** Decoding big-endian bytes gives back any value that fits in n bytes. */
  lemma {:induction false} BeRoundTrip(x: nat, n: nat)
    requires x < Pow256(n)
    ensures BeValue(BeBytes(x, n)) == x
  {
    if n > 0 {
      var s := BeBytes(x, n);
      assert s[..|s| - 1] == BeBytes(x / 256, n - 1);
      ShiftOutByte(x, n);
      BeRoundTrip(x / 256, n - 1);
    }
  }

  /** Dropping the low byte of a value that fits in n bytes leaves one that fits in n - 1. */
  lemma ShiftOutByte(x: nat, n: nat)
    requires n > 0 && x < Pow256(n)
    ensures x / 256 < Pow256(n - 1) && 256 * (x / 256) + x % 256 == x
  {
  }
}
