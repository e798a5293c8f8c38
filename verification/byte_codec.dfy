/** Little-endian encodings of the fixed-width integers written to the probe
    file: `VkDeviceSize` record sizes (unsigned 64-bit) and the components of
    the `glm::ivec3` dims header (signed 32-bit, two's complement), as the
    raw `file.write` of their in-memory bytes produces them on a
    little-endian host. */
module ByteCodec {

  type Byte = x: int | 0 <= x < 256

  /** 256^n: the number of values n bytes can hold. */
  function Pow256(n: nat): (r: nat)
    ensures r > 0
  {
    if n == 0 then 1 else 256 * Pow256(n - 1)
  }

  /** The n-byte little-endian encoding of v. */
  function EncodeLE(v: nat, n: nat): (bs: seq<Byte>)
    requires v < Pow256(n)
    ensures |bs| == n
  {
    if n == 0 then [] else [v % 256] + EncodeLE(v / 256, n - 1)
  }

  /** The value of a little-endian byte string. */
  function DecodeLE(bs: seq<Byte>): (v: nat)
    ensures v < Pow256(|bs|)
  {
    if bs == [] then 0 else bs[0] + 256 * DecodeLE(bs[1..])
  }

  lemma {:induction false} DecodeEncodeLE(v: nat, n: nat)
    requires v < Pow256(n)
    ensures DecodeLE(EncodeLE(v, n)) == v
  {
    if n > 0 {
      var rest := EncodeLE(v / 256, n - 1);
      assert EncodeLE(v, n)[1..] == rest;
      DecodeEncodeLE(v / 256, n - 1);
    }
  }

  lemma {:induction false} EncodeDecodeLE(bs: seq<Byte>)
    ensures EncodeLE(DecodeLE(bs), |bs|) == bs
  {
    if bs != [] {
      var v := DecodeLE(bs);
      var w := DecodeLE(bs[1..]);
      assert v % 256 == bs[0] && v / 256 == w;
      EncodeDecodeLE(bs[1..]);
    }
  }

  /** Two values with the same encoding are equal, so distinct sizes are
      written as distinct byte strings. */
  lemma EncodeLEInjective(v: nat, w: nat, n: nat)
    requires v < Pow256(n) && w < Pow256(n)
    requires EncodeLE(v, n) == EncodeLE(w, n)
    ensures v == w
  {
    DecodeEncodeLE(v, n);
    DecodeEncodeLE(w, n);
  }

  const U64Limit: nat := 0x1_0000_0000_0000_0000

  lemma U64LimitIsPow()
    ensures Pow256(8) == U64Limit
  {
  }

  /** A `VkDeviceSize` as its 8 bytes. */
  function EncodeU64(v: nat): (bs: seq<Byte>)
    requires v < U64Limit
    ensures |bs| == 8
  {
    U64LimitIsPow();
    EncodeLE(v, 8)
  }

  function DecodeU64(bs: seq<Byte>): (v: nat)
    requires |bs| == 8
    ensures v < U64Limit
  {
    U64LimitIsPow();
    DecodeLE(bs)
  }

  lemma U64RoundTrip(v: nat)
    requires v < U64Limit
    ensures DecodeU64(EncodeU64(v)) == v
  {
    U64LimitIsPow();
    DecodeEncodeLE(v, 8);
  }

  lemma U64BytesRoundTrip(bs: seq<Byte>)
    requires |bs| == 8
    ensures EncodeU64(DecodeU64(bs)) == bs
  {
    U64LimitIsPow();
    EncodeDecodeLE(bs);
  }

  predicate IsI32(v: int)
  {
    -0x8000_0000 <= v < 0x8000_0000
  }

  lemma I32LimitIsPow()
    ensures Pow256(4) == 0x1_0000_0000
  {
  }

  /** An `int` as its 4 two's-complement bytes. */
  function EncodeI32(v: int): (bs: seq<Byte>)
    requires IsI32(v)
    ensures |bs| == 4
  {
    I32LimitIsPow();
    EncodeLE(if v < 0 then v + 0x1_0000_0000 else v, 4)
  }

  function DecodeI32(bs: seq<Byte>): (v: int)
    requires |bs| == 4
    ensures IsI32(v)
  {
    I32LimitIsPow();
    var u := DecodeLE(bs);
    if u < 0x8000_0000 then u else u - 0x1_0000_0000
  }

  lemma I32RoundTrip(v: int)
    requires IsI32(v)
    ensures DecodeI32(EncodeI32(v)) == v
  {
    I32LimitIsPow();
    DecodeEncodeLE(if v < 0 then v + 0x1_0000_0000 else v, 4);
  }

  lemma I32BytesRoundTrip(bs: seq<Byte>)
    requires |bs| == 4
    ensures EncodeI32(DecodeI32(bs)) == bs
  {
    I32LimitIsPow();
    EncodeDecodeLE(bs);
  }
}
