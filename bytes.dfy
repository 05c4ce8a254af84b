/**
 * Bytes and the fixed-width big-endian integers the decoder reads.
 * The conversions here play the part of Rust's `u16::from_be_bytes`,
 * `i32::from_be_bytes` and friends; each comes with its encoder and
 * round-trip lemmas in both directions.
 */
module Bytes {

  type Byte = b: int | 0 <= b < 256

  type UInt16 = x: int | 0 <= x < 0x1_0000
  type UInt32 = x: int | 0 <= x < 0x1_0000_0000
  type Int8 = x: int | -0x80 <= x < 0x80
  type Int16 = x: int | -0x8000 <= x < 0x8000
  type Int32 = x: int | -0x8000_0000 <= x < 0x8000_0000

  /** A chunk identifier: exactly four raw bytes, not necessarily ASCII. */
  type ChunkId = s: seq<Byte> | |s| == 4 witness [0, 0, 0, 0]

  // ---------------------------------------------------------------------
  // Unsigned big-endian decoding and encoding

  function U16Of(b: seq<Byte>): (v: UInt16)
    requires |b| == 2
  {
    (b[0] as int) * 0x100 + b[1]
  }

  function U32Of(b: seq<Byte>): (v: UInt32)
    requires |b| == 4
  {
    (((b[0] as int) * 0x100 + b[1]) * 0x100 + b[2]) * 0x100 + b[3]
  }

  function U16Bytes(v: UInt16): (b: seq<Byte>)
    ensures |b| == 2
  {
    [v / 0x100, v % 0x100]
  }

  function U32Bytes(v: UInt32): (b: seq<Byte>)
    ensures |b| == 4
  {
    var v1 := v / 0x100;
    var v2 := v1 / 0x100;
    [v2 / 0x100, v2 % 0x100, v1 % 0x100, v % 0x100]
  }

  /** The most significant byte comes first: the value is monotone in it. */
  lemma U16MostSignificantFirst(b: seq<Byte>, c: seq<Byte>)
    requires |b| == 2 && |c| == 2 && b[0] < c[0]
    ensures U16Of(b) < U16Of(c)
  {
  }

  lemma U16RoundTrip(v: UInt16)
    ensures U16Of(U16Bytes(v)) == v
  {
  }

  lemma U16BytesRoundTrip(b: seq<Byte>)
    requires |b| == 2
    ensures U16Bytes(U16Of(b)) == b
  {
  }

  lemma U32RoundTrip(v: UInt32)
    ensures U32Of(U32Bytes(v)) == v
  {
    var v1 := v / 0x100;
    var v2 := v1 / 0x100;
    assert v2 == (v2 / 0x100) * 0x100 + v2 % 0x100;
    assert v1 == v2 * 0x100 + v1 % 0x100;
    assert v == v1 * 0x100 + v % 0x100;
  }

  /** Splitting off the low byte of `x` gives back `hi` and `lo`. */
  lemma LowByte(x: int, hi: int, lo: Byte)
    requires x == hi * 0x100 + lo
    ensures x / 0x100 == hi && x % 0x100 == lo
  {
  }

  lemma U32BytesRoundTrip(b: seq<Byte>)
    requires |b| == 4
    ensures U32Bytes(U32Of(b)) == b
  {
    var x2 := (b[0] as int) * 0x100 + b[1];
    var x1 := x2 * 0x100 + b[2];
    LowByte(U32Of(b), x1, b[3]);
    LowByte(x1, x2, b[2]);
    LowByte(x2, b[0], b[1]);
    assert U32Bytes(U32Of(b)) == [b[0], b[1], b[2], b[3]];
  }

  // ---------------------------------------------------------------------
  // Two's-complement interpretation

  function ToSigned8(u: Byte): (s: Int8)
    ensures s >= 0 <==> u < 0x80
    ensures s % 0x100 == u
  {
    if u < 0x80 then u else u - 0x100
  }

  function ToSigned16(u: UInt16): (s: Int16)
    ensures s >= 0 <==> u < 0x8000
    ensures s % 0x1_0000 == u
  {
    if u < 0x8000 then u else u - 0x1_0000
  }

  function ToSigned32(u: UInt32): (s: Int32)
    ensures s >= 0 <==> u < 0x8000_0000
    ensures s % 0x1_0000_0000 == u
  {
    if u < 0x8000_0000 then u else u - 0x1_0000_0000
  }

  function I8Of(b: seq<Byte>): (v: Int8)
    requires |b| == 1
  {
    ToSigned8(b[0])
  }

  function I16Of(b: seq<Byte>): (v: Int16)
    requires |b| == 2
  {
    ToSigned16(U16Of(b))
  }

  function I32Of(b: seq<Byte>): (v: Int32)
    requires |b| == 4
  {
    ToSigned32(U32Of(b))
  }

  /** Two's-complement encoders, the partners of the signed readers. */
  function I16Bytes(v: Int16): (b: seq<Byte>)
    ensures |b| == 2
  {
    U16Bytes(v % 0x1_0000)
  }

  function I32Bytes(v: Int32): (b: seq<Byte>)
    ensures |b| == 4
  {
    U32Bytes(v % 0x1_0000_0000)
  }

  lemma I16RoundTrip(v: Int16)
    ensures I16Of(I16Bytes(v)) == v
  {
    U16RoundTrip(v % 0x1_0000);
  }

  lemma I16BytesRoundTrip(b: seq<Byte>)
    requires |b| == 2
    ensures I16Bytes(I16Of(b)) == b
  {
    U16BytesRoundTrip(b);
  }

  lemma I32RoundTrip(v: Int32)
    ensures I32Of(I32Bytes(v)) == v
  {
    U32RoundTrip(v % 0x1_0000_0000);
  }

  lemma I32BytesRoundTrip(b: seq<Byte>)
    requires |b| == 4
    ensures I32Bytes(I32Of(b)) == b
  {
    U32BytesRoundTrip(b);
  }

  /** A negative value is exactly one whose top bit is set. */
  lemma I32SignBit(b: seq<Byte>)
    requires |b| == 4
    ensures I32Of(b) < 0 <==> b[0] >= 0x80
  {
  }

  // ---------------------------------------------------------------------
  // Reads at an offset of a byte sequence

  function U16At(data: seq<Byte>, p: nat): UInt16
    requires p + 2 <= |data|
  {
    U16Of(data[p..p + 2])
  }

  function U32At(data: seq<Byte>, p: nat): UInt32
    requires p + 4 <= |data|
  {
    U32Of(data[p..p + 4])
  }

  function I8At(data: seq<Byte>, p: nat): Int8
    requires p + 1 <= |data|
  {
    I8Of(data[p..p + 1])
  }

  function I16At(data: seq<Byte>, p: nat): Int16
    requires p + 2 <= |data|
  {
    I16Of(data[p..p + 2])
  }

  function I32At(data: seq<Byte>, p: nat): Int32
    requires p + 4 <= |data|
  {
    I32Of(data[p..p + 4])
  }

  // ---------------------------------------------------------------------
  // Reading back what was written, wherever it lies

  /** `part` lies in `data` from `r` on. */
  predicate Placed(data: seq<Byte>, r: nat, part: seq<Byte>)
  {
    r + |part| <= |data| && data[r..r + |part|] == part
  }

  /** Bytes written between any bytes before and after them lie where the first end. */
  lemma PlacedBetween(pre: seq<Byte>, part: seq<Byte>, post: seq<Byte>)
    ensures Placed(pre + part + post, |pre|, part)
  {
    assert (pre + part + post)[|pre|..|pre| + |part|] == part;
  }

  lemma SplitPlaced(data: seq<Byte>, r: nat, a: seq<Byte>, b: seq<Byte>)
    requires Placed(data, r, a + b)
    ensures Placed(data, r, a) && Placed(data, r + |a|, b)
  {
    assert data[r..r + |a|] == (a + b)[..|a|];
    assert data[r + |a|..r + |a| + |b|] == (a + b)[|a|..];
  }

  lemma U16Placed(data: seq<Byte>, r: nat, v: UInt16)
    requires Placed(data, r, U16Bytes(v))
    ensures U16At(data, r) == v
  {
    U16RoundTrip(v);
  }

  lemma U32Placed(data: seq<Byte>, r: nat, v: UInt32)
    requires Placed(data, r, U32Bytes(v))
    ensures U32At(data, r) == v
  {
    U32RoundTrip(v);
  }

  lemma I16Placed(data: seq<Byte>, r: nat, v: Int16)
    requires Placed(data, r, I16Bytes(v))
    ensures I16At(data, r) == v
  {
    I16RoundTrip(v);
  }

  lemma I32Placed(data: seq<Byte>, r: nat, v: Int32)
    requires Placed(data, r, I32Bytes(v))
    ensures I32At(data, r) == v
  {
    I32RoundTrip(v);
  }

  /** The byte an `i8` is stored as: the partner of ToSigned8. */
  function I8Byte(v: Int8): (b: Byte)
    ensures ToSigned8(b) == v
  {
    v % 0x100
  }

  /** Each byte reinterpreted as `i8`, as the application-chunk payload is. */
  function ToSignedBytes(s: seq<Byte>): (r: seq<Int8>)
    ensures |r| == |s|
    ensures forall i :: 0 <= i < |s| ==> r[i] == ToSigned8(s[i])
  {
    seq(|s|, i requires 0 <= i < |s| => ToSigned8(s[i]))
  }

  /** The bytes a sequence of `i8` values is stored as. */
  function UnsignedBytes(xs: seq<Int8>): (b: seq<Byte>)
    ensures |b| == |xs|
    ensures forall i :: 0 <= i < |xs| ==> b[i] == I8Byte(xs[i])
  {
    seq(|xs|, i requires 0 <= i < |xs| => I8Byte(xs[i]))
  }

  lemma SignedBytesRoundTrip(xs: seq<Int8>)
    ensures ToSignedBytes(UnsignedBytes(xs)) == xs
  {
  }

  /** `i8` values written one after the other read back one by one. */
  lemma I8sPlaced(data: seq<Byte>, r: nat, xs: seq<Int8>)
    requires Placed(data, r, UnsignedBytes(xs))
    ensures forall k :: 0 <= k < |xs| ==> I8At(data, r + k) == xs[k]
  {
    forall k | 0 <= k < |xs|
      ensures I8At(data, r + k) == xs[k]
    {
      assert data[r + k..r + k + 1] == [UnsignedBytes(xs)[k]];
    }
  }
}
