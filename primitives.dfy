/**
 * The primitive readers of reader.rs: fixed-width big-endian integers,
 * a raw four-byte chunk identifier and a Pascal string. Each advances the
 * cursor by exactly the bytes it decodes.
 */
module Primitives {
  import opened Wrappers
  import opened Bytes
  import opened Cursors

  method ReadChunkId(r: Cursor) returns (id: ChunkId)
    requires r.pos + 4 <= |r.data|
    modifies r
    ensures id == r.data[old(r.pos)..old(r.pos) + 4]
    ensures r.pos == old(r.pos) + 4
  {
    id := r.ReadExact(4);
  }

  method ReadU8(r: Cursor) returns (v: Byte)
    requires r.pos + 1 <= |r.data|
    modifies r
    ensures v == r.data[old(r.pos)]
    ensures r.pos == old(r.pos) + 1
  {
    var b := r.ReadExact(1);
    v := b[0];
  }

  method ReadU16Be(r: Cursor) returns (v: UInt16)
    requires r.pos + 2 <= |r.data|
    modifies r
    ensures v == U16At(r.data, old(r.pos))
    ensures r.pos == old(r.pos) + 2
  {
    var b := r.ReadExact(2);
    v := U16Of(b);
  }

  method ReadU32Be(r: Cursor) returns (v: UInt32)
    requires r.pos + 4 <= |r.data|
    modifies r
    ensures v == U32At(r.data, old(r.pos))
    ensures r.pos == old(r.pos) + 4
  {
    var b := r.ReadExact(4);
    v := U32Of(b);
  }

  method ReadI8Be(r: Cursor) returns (v: Int8)
    requires r.pos + 1 <= |r.data|
    modifies r
    ensures v == I8At(r.data, old(r.pos))
    ensures r.pos == old(r.pos) + 1
  {
    var b := r.ReadExact(1);
    v := I8Of(b);
  }

  method ReadI16Be(r: Cursor) returns (v: Int16)
    requires r.pos + 2 <= |r.data|
    modifies r
    ensures v == I16At(r.data, old(r.pos))
    ensures r.pos == old(r.pos) + 2
  {
    var b := r.ReadExact(2);
    v := I16Of(b);
  }

  method ReadI32Be(r: Cursor) returns (v: Int32)
    requires r.pos + 4 <= |r.data|
    modifies r
    ensures v == I32At(r.data, old(r.pos))
    ensures r.pos == old(r.pos) + 4
  {
    var b := r.ReadExact(4);
    v := I32Of(b);
  }

  // ---------------------------------------------------------------------
  // Pascal strings

  /**
   * The Pascal string whose length byte is at `q`, and the position after
   * it: one length byte, that many bytes, and one pad byte when the length
   * is odd. None when those bytes run past the end.
   */
  function PStringAt(data: seq<Byte>, q: nat): (o: Option<(seq<Byte>, nat)>)
    ensures o.Some? <==> q < |data| && q + 1 + data[q] + data[q] % 2 <= |data|
    ensures o.Some? ==> |o.value.0| == data[q]
    ensures o.Some? ==> o.value.1 == q + 1 + |o.value.0| + |o.value.0| % 2
  {
    if q + 1 > |data| then None
    else
      var len := data[q];
      if q + 1 + len + len % 2 > |data| then None
      else Some((data[q + 1..q + 1 + len], q + 1 + len + len % 2))
  }

  /** The layout a Pascal string is written in: the partner of PStringAt. */
  function PStringBytes(s: seq<Byte>): (b: seq<Byte>)
    requires |s| < 0x100
    ensures |b| == 1 + |s| + |s| % 2
  {
    [|s|] + s + (if |s| % 2 == 1 then [0] else [])
  }

  /** A Pascal string reads back from wherever its layout lies. */
  lemma PStringRoundTrip(data: seq<Byte>, r: nat, s: seq<Byte>)
    requires |s| < 0x100 && Placed(data, r, PStringBytes(s))
    ensures PStringAt(data, r) == Some((s, r + |PStringBytes(s)|))
  {
    var b := PStringBytes(s);
    assert data[r] == b[0] == |s|;
    assert forall k :: 0 <= k < |s| ==> b[1 + k] == s[k];
    assert data[r + 1..r + 1 + |s|] == b[1..1 + |s|] == s;
  }

  method ReadPString(r: Cursor) returns (s: seq<Byte>)
    requires PStringAt(r.data, r.pos).Some?
    modifies r
    ensures (s, r.pos) == PStringAt(r.data, old(r.pos)).value
  {
    var len := ReadU8(r);
    s := r.ReadExact(len);
    if len % 2 > 0 {
      // skip the pad byte after an odd length
      r.Seek(1);
    }
  }
}
