/**
  Byte-level vocabulary shared by the frame encoder and the log writer:
  bytes, opaque IEEE-754 single-precision bit patterns, and the
  little-endian serialisation that `f32::to_le_bytes` and `u8::to_le_bytes`
  perform.
 */
module Bytes {

  type byte = x: int | 0 <= x < 256

  /** The bit pattern of an `f32`, read as an unsigned 32-bit integer.
      The model never interprets it as a number. */
  type F32 = x: int | 0 <= x < 0x1_0000_0000

  function Pow256(n: nat): (p: nat)
    ensures p > 0
  {
    if n == 0 then 1 else 256 * Pow256(n - 1)
  }

  /** Value of a little-endian digit string in base 256: the decoder
      (`from_le_bytes`) for a buffer of any width. */
  function LeValue(bs: seq<byte>): (v: nat)
    ensures v < Pow256(|bs|)
  {
    if |bs| == 0 then 0 else bs[0] + 256 * LeValue(bs[1..])
  }

  /** The `n` bytes of `x`, least significant first (`to_le_bytes` of an
      `n`-byte unsigned integer). */
  function LeBytes(x: nat, n: nat): (r: seq<byte>)
    requires x < Pow256(n)
    ensures |r| == n
    ensures LeValue(r) == x
  {
    if n == 0 then [] else [x % 256] + LeBytes(x / 256, n - 1)
  }

  /** Encoding after decoding gives the buffer back: a little-endian
      buffer is determined by its value and width. */
  lemma {:induction false} LeBytesOfValue(bs: seq<byte>)
    ensures LeBytes(LeValue(bs), |bs|) == bs
  {
    if |bs| > 0 {
      var v := LeValue(bs);
      assert v % 256 == bs[0] && v / 256 == LeValue(bs[1..]);
      LeBytesOfValue(bs[1..]);
      assert LeBytes(v, |bs|) == [bs[0]] + bs[1..];
    }
  }

  /** Two buffers of equal width with the same value are the same buffer. */
  lemma LeValueInjective(a: seq<byte>, b: seq<byte>)
    requires |a| == |b| && LeValue(a) == LeValue(b)
    ensures a == b
  {
    LeBytesOfValue(a);
    LeBytesOfValue(b);
  }

  /** `f32::to_le_bytes` on a bit pattern. */
  function F32Bytes(x: F32): (r: seq<byte>)
    ensures |r| == 4 && LeValue(r) == x
  {
    LeBytes(x, 4)
  }

  /** `f32::from_le_bytes`, read back as a bit pattern. */
  function F32FromBytes(bs: seq<byte>): (x: F32)
    requires |bs| == 4
    ensures F32Bytes(x) == bs
  {
    LeBytesOfValue(bs);
    LeValue(bs)
  }

  /** Decoding the bytes of a bit pattern gives the pattern back. */
  lemma F32RoundTrip(x: F32)
    ensures F32FromBytes(F32Bytes(x)) == x
  {
  }
}
