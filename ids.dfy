/**
 * The four-character chunk identifiers of AIFF 1.3 and the three-byte
 * markers of embedded tag metadata, as byte values.
 */
module Ids {
  import opened Bytes

  const FORM: ChunkId := [0x46, 0x4F, 0x52, 0x4D]        // "FORM"
  const AIFF: ChunkId := [0x41, 0x49, 0x46, 0x46]        // "AIFF"
  const AIFF_C: ChunkId := [0x41, 0x49, 0x46, 0x43]      // "AIFC"
  const COMMON: ChunkId := [0x43, 0x4F, 0x4D, 0x4D]      // "COMM"
  const SOUND: ChunkId := [0x53, 0x53, 0x4E, 0x44]       // "SSND"
  const MARKER: ChunkId := [0x4D, 0x41, 0x52, 0x4B]      // "MARK"
  const INSTRUMENT: ChunkId := [0x49, 0x4E, 0x53, 0x54]  // "INST"
  const MIDI: ChunkId := [0x4D, 0x49, 0x44, 0x49]        // "MIDI"
  const RECORDING: ChunkId := [0x41, 0x45, 0x53, 0x44]   // "AESD"
  const APPLICATION: ChunkId := [0x41, 0x50, 0x50, 0x4C] // "APPL"
  const COMMENTS: ChunkId := [0x43, 0x4F, 0x4D, 0x54]    // "COMT"
  const NAME: ChunkId := [0x4E, 0x41, 0x4D, 0x45]        // "NAME"
  const AUTHOR: ChunkId := [0x41, 0x55, 0x54, 0x48]      // "AUTH"
  const COPYRIGHT: ChunkId := [0x28, 0x63, 0x29, 0x20]   // "(c) "
  const ANNOTATION: ChunkId := [0x41, 0x4E, 0x4E, 0x4F]  // "ANNO"
  const FVER: ChunkId := [0x46, 0x56, 0x45, 0x52]        // "FVER"
  const CHAN: ChunkId := [0x43, 0x48, 0x41, 0x4E]        // "CHAN"
  const BASC: ChunkId := [0x62, 0x61, 0x73, 0x63]        // "basc"
  const TRNS: ChunkId := [0x74, 0x72, 0x6E, 0x73]        // "trns"
  const CATE: ChunkId := [0x63, 0x61, 0x74, 0x65]        // "cate"

  /** "ID3", the start of an embedded ID3v2 tag (not chunk-aligned). */
  const ID3: seq<Byte> := [0x49, 0x44, 0x33]
  /** "TAG", the start of an ID3v1 tag. */
  const TAG: seq<Byte> := [0x54, 0x41, 0x47]

}
