/**
 * The decoded chunk values of chunks.rs, the error kinds a decoder
 * returns, and the two external decoders the chunk decoders call.
 */
module ChunkTypes {
  import opened Wrappers
  import opened Bytes

  datatype ChunkError =
    | InvalidID(id: ChunkId)
    | InvalidFormType(formType: ChunkId)
    | InvalidID3Version(version: seq<Byte>)
    | InvalidSize(expected: Int32, got: Int32)
    | InvalidData(reason: string)

  /** The 10 raw bytes of an 80-bit extended-precision sample rate. */
  datatype ExtendedFloat = ExtendedFloat(bytes: seq<Byte>)

  datatype CommonChunk = CommonChunk(
    size: Int32,
    numChannels: Int16,
    numSampleFrames: UInt32,
    bitRate: Int16,
    sampleRate: ExtendedFloat)

  datatype SoundDataChunk = SoundDataChunk(
    size: Int32,
    offset: UInt32,
    blockSize: UInt32,
    soundData: seq<Byte>)

  datatype Marker = Marker(id: Int16, position: UInt32, markerName: seq<Byte>)

  datatype MarkerChunk = MarkerChunk(size: Int32, numMarkers: UInt16, markers: seq<Marker>)

  datatype TextChunkType = Name | Author | Copyright | Annotation

  datatype TextChunk = TextChunk(chunkType: TextChunkType, size: Int32, text: seq<Byte>)

  datatype Loop = Loop(playMode: Int16, beginLoop: Int16, endLoop: Int16)

  datatype InstrumentChunk = InstrumentChunk(
    size: Int32,
    baseNote: Int8,
    detune: Int8,
    lowNote: Int8,
    highNote: Int8,
    lowVelocity: Int8,
    highVelocity: Int8,
    gain: Int16,
    sustainLoop: Loop,
    releaseLoop: Loop)

  datatype MIDIDataChunk = MIDIDataChunk(size: Int32, data: seq<Byte>)

  datatype AudioRecordingChunk = AudioRecordingChunk(size: Int32, data: seq<Byte>)

  datatype ApplicationSpecificChunk = ApplicationSpecificChunk(
    size: Int32,
    applicationSignature: ChunkId,
    data: seq<Int8>)

  datatype Comment = Comment(timestamp: UInt32, markerId: Int16, count: UInt16, text: seq<Byte>)

  datatype CommentsChunk = CommentsChunk(size: Int32, numComments: UInt16, comments: seq<Comment>)

  /** The value the external ID3 codec produces; this model does not look inside it. */
  datatype Id3Tag = Id3Tag(raw: seq<Byte>)

  datatype ID3v2Chunk = ID3v2Chunk(tag: Id3Tag)

  /**
   * What a decoder returns, `Result<Option<T>, ChunkError>`, together with
   * the stream position it leaves behind.
   */
  datatype Parsed<T> = Parsed(result: Result<Option<T>, ChunkError>, next: nat)

  /** The outcome of the external ID3 codec: a tag and the bytes it consumed, or an error. */
  datatype TagRead = TagOk(tag: Id3Tag, length: nat) | TagFailed

  /**
   * The two decoders this core calls but does not define: whether the
   * extended-precision sample rate converts to a float, and the ID3 codec
   * reading from a position of the stream.
   */
  datatype Codecs = Codecs(
    extendedOk: seq<Byte> -> bool,
    readTag: (seq<Byte>, nat) -> TagRead)

}
