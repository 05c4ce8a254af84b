/**
 * The seekable byte source every decoder reads from: the buffered reader
 * over the file, reduced to the bytes and a position. Reads and seeks that
 * would leave the bytes are excluded by preconditions; in the source they
 * are I/O errors that are unwrapped, that is, panics.
 */
module Cursors {
  import opened Bytes

  class Cursor {
    const data: seq<Byte>
    var pos: nat

    constructor (source: seq<Byte>)
      ensures data == source && pos == 0
    {
      data := source;
      pos := 0;
    }

    /** Bytes left between the position and the end. */
    function Available(): (n: int)
      reads this
      ensures n + pos == |data|
    {
      |data| - pos
    }

    method Rewind()
      modifies this
      ensures pos == 0
    {
      pos := 0;
    }

    /** `seek(SeekFrom::Current(offset))` */
    method Seek(offset: int)
      requires 0 <= pos + offset <= |data|
      modifies this
      ensures pos == old(pos) + offset
    {
      pos := pos + offset;
    }

    /** `seek(SeekFrom::Start(p))` */
    method SeekStart(p: nat)
      requires p <= |data|
      modifies this
      ensures pos == p
    {
      pos := p;
    }

    /** `read_exact` into a buffer of `n` bytes. */
    method ReadExact(n: nat) returns (bytes: seq<Byte>)
      requires pos + n <= |data|
      modifies this
      ensures bytes == data[old(pos)..old(pos) + n]
      ensures pos == old(pos) + n
    {
      bytes := data[pos..pos + n];
      pos := pos + n;
    }
  }
}
