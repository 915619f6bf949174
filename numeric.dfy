/**
 * Fixed-width integers of the host and the little-endian byte encoding that
 * `u64::to_le_bytes` (program side) and `BN.toArrayLike(Buffer, "le", 8)`
 * (client side) both produce for an escrow id.
 */
module Numeric {

  type Byte = b: int | 0 <= b < 256

  const U64_LIMIT: nat := 0x1_0000_0000_0000_0000

  /** Rust's `u64`. */
  type U64 = n: int | 0 <= n < U64_LIMIT

  /** 256 raised to the power k: the number of values a k-byte string can hold. */
  function Pow256(k: nat): (p: nat)
    ensures p >= 1
  {
    if k == 0 then 1 else 256 * Pow256(k - 1)
  }

  /** The `width` least significant bytes of `n`, least significant first. */
  function LeBytes(n: nat, width: nat): (bs: seq<Byte>)
    ensures |bs| == width
  {
    if width == 0 then [] else [n % 256] + LeBytes(n / 256, width - 1)
  }

  /** The number a little-endian byte string denotes. */
  function FromLe(bs: seq<Byte>): nat
  {
    if bs == [] then 0 else bs[0] + 256 * FromLe(bs[1..])
  }

  /** `u64::to_le_bytes`: eight bytes, least significant first. */
  function ToLeBytes(n: U64): (bs: seq<Byte>)
    ensures |bs| == 8
  {
    LeBytes(n, 8)
  }

  /** A k-byte string denotes a number below 256^k. */
  lemma {:induction false} FromLeBound(bs: seq<Byte>)
    ensures FromLe(bs) < Pow256(|bs|)
  {
    if bs != [] {
      FromLeBound(bs[1..]);
    }
  }

  /** Decoding an encoding gives back the number, when it fits the width. */
  lemma {:induction false} LeRoundTrip(n: nat, width: nat)
    requires n < Pow256(width)
    ensures FromLe(LeBytes(n, width)) == n
  {
    if width > 0 {
      LeRoundTrip(n / 256, width - 1);
      assert LeBytes(n, width)[1..] == LeBytes(n / 256, width - 1);
    }
  }

  /** Encoding a decoded string at its own width gives back the string. */
  lemma {:induction false} LeDecodeRoundTrip(bs: seq<Byte>)
    ensures LeBytes(FromLe(bs), |bs|) == bs
  {
    if bs != [] {
      LeDecodeRoundTrip(bs[1..]);
      var n := FromLe(bs);
      assert n % 256 == bs[0] && n / 256 == FromLe(bs[1..]);
    }
  }

  /** The 8-byte encoding of a `u64` decodes to it, so distinct ids give distinct bytes. */
  lemma ToLeBytesRoundTrip(n: U64)
    ensures FromLe(ToLeBytes(n)) == n
  {
    assert Pow256(8) == U64_LIMIT;
    LeRoundTrip(n, 8);
  }

  /** Injectivity of the escrow-id encoding. */
  lemma ToLeBytesInjective(a: U64, b: U64)
    ensures ToLeBytes(a) == ToLeBytes(b) <==> a == b
  {
    ToLeBytesRoundTrip(a);
    ToLeBytesRoundTrip(b);
  }

  /** Every 8-byte string is the encoding of exactly one `u64`. */
  lemma ToLeBytesSurjective(bs: seq<Byte>)
    requires |bs| == 8
    ensures FromLe(bs) < U64_LIMIT && ToLeBytes(FromLe(bs)) == bs
  {
    FromLeBound(bs);
    assert Pow256(8) == U64_LIMIT;
    LeDecodeRoundTrip(bs);
  }
}
