/**
 * The chunk decoders of chunks.rs as methods over the cursor. Each stores
 * the entry position into `currBufPos` when that slot is present, checks
 * the tag, and then reads or skips; each is proved to return, and to leave
 * the cursor, exactly as its layout function in ChunkSpec says.
 */
module Chunks {
  import opened Wrappers
  import opened Bytes
  import opened Ids
  import opened ChunkTypes
  import opened Form
  import opened Cursors
  import opened Primitives
  import opened ChunkSpec

  /** What a decoder leaves in `curr_buf_pos`: the entry position when the slot is present. */
  function Recorded(currBufPos: Option<nat>, entry: nat): Option<nat>
  {
    if currBufPos.Some? then Some(entry) else None
  }

  method ParseForm(buf: Cursor, id: ChunkId, readData: bool, currBufPos: Option<nat>)
    returns (bufPos: Option<nat>, r: Result<Option<FormData>, ChunkError>)
    requires FormChunkAt(buf.data, buf.pos, id, readData).Some?
    modifies buf
    ensures bufPos == Recorded(currBufPos, old(buf.pos))
    ensures Parsed(r, buf.pos) == FormChunkAt(buf.data, old(buf.pos), id, readData).value
  {
    bufPos := currBufPos;
    if bufPos.Some? {
      bufPos := Some(buf.pos);
    }
    if id != FORM {
      return bufPos, Failure(InvalidID(id));
    }
    var size := ReadI32Be(buf);
    if !readData {
      buf.Seek(4);
      return bufPos, Success(None);
    }
    var formType: ChunkId := buf.ReadExact(4);
    if formType == AIFF {
      r := Success(Some(EmptyForm));
    } else if formType == AIFF_C {
      // AIFF-C is recognised and refused
      r := Failure(InvalidFormType(formType));
    } else {
      r := Failure(InvalidFormType(formType));
    }
  }

  method ParseCommon(buf: Cursor, id: ChunkId, readData: bool, currBufPos: Option<nat>,
                     extendedOk: seq<Byte> -> bool)
    returns (bufPos: Option<nat>, r: Result<Option<CommonChunk>, ChunkError>)
    requires CommonChunkAt(buf.data, buf.pos, id, readData, extendedOk).Some?
    modifies buf
    ensures bufPos == Recorded(currBufPos, old(buf.pos))
    ensures Parsed(r, buf.pos) == CommonChunkAt(buf.data, old(buf.pos), id, readData, extendedOk).value
  {
    bufPos := currBufPos;
    if bufPos.Some? {
      bufPos := Some(buf.pos);
    }
    if id != COMMON {
      return bufPos, Failure(InvalidID(id));
    }
    var size := ReadI32Be(buf);
    var numChannels := ReadI16Be(buf);
    var numSampleFrames := ReadU32Be(buf);
    var bitRate := ReadI16Be(buf);
    if !readData {
      buf.Seek(10);
      return bufPos, Success(None);
    }
    var rateBuf := buf.ReadExact(10);
    if !extendedOk(rateBuf) {
      return bufPos, Failure(InvalidData("Extended Precision"));
    }
    r := Success(Some(CommonChunk(size, numChannels, numSampleFrames, bitRate, ExtendedFloat(rateBuf))));
  }

  method ParseSoundData(buf: Cursor, id: ChunkId, readData: bool, currBufPos: Option<nat>)
    returns (bufPos: Option<nat>, r: Result<Option<SoundDataChunk>, ChunkError>)
    requires SoundDataChunkAt(buf.data, buf.pos, id, readData).Some?
    modifies buf
    ensures bufPos == Recorded(currBufPos, old(buf.pos))
    ensures Parsed(r, buf.pos) == SoundDataChunkAt(buf.data, old(buf.pos), id, readData).value
  {
    bufPos := currBufPos;
    if bufPos.Some? {
      bufPos := Some(buf.pos);
    }
    if id != SOUND {
      return bufPos, Failure(InvalidID(id));
    }
    var size := ReadI32Be(buf);
    var offset := ReadU32Be(buf);
    var blockSize := ReadU32Be(buf);
    if !readData {
      buf.Seek(size);
      return bufPos, Success(None);
    }
    var soundData := buf.ReadExact(size);
    r := Success(Some(SoundDataChunk(size, offset, blockSize, soundData)));
  }

  /** `Marker::from_reader` */
  method ReadMarker(r: Cursor) returns (m: Marker)
    requires MarkerAt(r.data, r.pos).Some?
    modifies r
    ensures (m, r.pos) == MarkerAt(r.data, old(r.pos)).value
  {
    var id := ReadI16Be(r);
    var position := ReadU32Be(r);
    var markerName := ReadPString(r);
    m := Marker(id, position, markerName);
  }

  method ParseMarker(buf: Cursor, id: ChunkId, readData: bool, currBufPos: Option<nat>)
    returns (bufPos: Option<nat>, r: Result<Option<MarkerChunk>, ChunkError>)
    requires MarkerChunkAt(buf.data, buf.pos, id).Some?
    modifies buf
    ensures bufPos == Recorded(currBufPos, old(buf.pos))
    ensures Parsed(r, buf.pos) == MarkerChunkAt(buf.data, old(buf.pos), id).value
  {
    bufPos := currBufPos;
    if bufPos.Some? {
      bufPos := Some(buf.pos);
    }
    if id != MARKER {
      return bufPos, Failure(InvalidID(id));
    }
    var size := ReadI32Be(buf);
    var numMarkers := ReadU16Be(buf);
    // read_data is not consulted: the markers are always decoded
    ghost var first := buf.pos;
    var markers: seq<Marker> := [];
    for i := 0 to numMarkers
      invariant MarkersAt(buf.data, first, i) == Some((markers, buf.pos))
    {
      ItemsPrefix(buf.data, first, numMarkers, i, MarkerAt);
      ghost var before := buf.pos;
      var m := ReadMarker(buf);
      assert MarkerAt(buf.data, before) == Some((m, buf.pos));
      markers := markers + [m];
    }
    assert first == old(buf.pos) + 6 && numMarkers == U16At(buf.data, old(buf.pos) + 4);
    r := Success(Some(MarkerChunk(size, numMarkers, markers)));
  }

  method ParseText(buf: Cursor, id: ChunkId, readData: bool, currBufPos: Option<nat>)
    returns (bufPos: Option<nat>, r: Result<Option<TextChunk>, ChunkError>)
    requires TextChunkAt(buf.data, buf.pos, id, readData).Some?
    modifies buf
    ensures bufPos == Recorded(currBufPos, old(buf.pos))
    ensures Parsed(r, buf.pos) == TextChunkAt(buf.data, old(buf.pos), id, readData).value
  {
    bufPos := currBufPos;
    if bufPos.Some? {
      bufPos := Some(buf.pos);
    }
    var chunkType: TextChunkType;
    if id == NAME {
      chunkType := Name;
    } else if id == AUTHOR {
      chunkType := Author;
    } else if id == COPYRIGHT {
      chunkType := Copyright;
    } else if id == ANNOTATION {
      chunkType := Annotation;
    } else {
      return bufPos, Failure(InvalidID(id));
    }
    var size := ReadI32Be(buf);
    var bufPosOffset := if size % 2 > 0 then 1 else 0;
    if !readData {
      buf.Seek(size as int + bufPosOffset);
      return bufPos, Success(None);
    }
    var textBytes := buf.ReadExact(size);
    buf.Seek(bufPosOffset);
    r := Success(Some(TextChunk(chunkType, size, textBytes)));
  }

  /** `Loop::from_reader` */
  method ReadLoop(r: Cursor) returns (l: Loop)
    requires r.pos + 6 <= |r.data|
    modifies r
    ensures l == LoopAt(r.data, old(r.pos))
    ensures r.pos == old(r.pos) + 6
  {
    var playMode := ReadI16Be(r);
    var beginLoop := ReadI16Be(r);
    var endLoop := ReadI16Be(r);
    l := Loop(playMode, beginLoop, endLoop);
  }

  method ParseInstrument(buf: Cursor, id: ChunkId, readData: bool, currBufPos: Option<nat>)
    returns (bufPos: Option<nat>, r: Result<Option<InstrumentChunk>, ChunkError>)
    requires InstrumentChunkAt(buf.data, buf.pos, id).Some?
    modifies buf
    ensures bufPos == Recorded(currBufPos, old(buf.pos))
    ensures Parsed(r, buf.pos) == InstrumentChunkAt(buf.data, old(buf.pos), id).value
  {
    bufPos := currBufPos;
    if bufPos.Some? {
      bufPos := Some(buf.pos);
    }
    if id != INSTRUMENT {
      return bufPos, Failure(InvalidID(id));
    }
    // read_data is not consulted: the fields are always decoded
    var size := ReadI32Be(buf);
    var baseNote := ReadI8Be(buf);
    var detune := ReadI8Be(buf);
    var lowNote := ReadI8Be(buf);
    var highNote := ReadI8Be(buf);
    var lowVelocity := ReadI8Be(buf);
    var highVelocity := ReadI8Be(buf);
    var gain := ReadI16Be(buf);
    var sustainLoop := ReadLoop(buf);
    var releaseLoop := ReadLoop(buf);
    r := Success(Some(InstrumentChunk(size, baseNote, detune, lowNote, highNote, lowVelocity,
                                      highVelocity, gain, sustainLoop, releaseLoop)));
  }

  method ParseMIDIData(buf: Cursor, id: ChunkId, readData: bool, currBufPos: Option<nat>)
    returns (bufPos: Option<nat>, r: Result<Option<MIDIDataChunk>, ChunkError>)
    requires MIDIDataChunkAt(buf.data, buf.pos, id, readData).Some?
    modifies buf
    ensures bufPos == Recorded(currBufPos, old(buf.pos))
    ensures Parsed(r, buf.pos) == MIDIDataChunkAt(buf.data, old(buf.pos), id, readData).value
  {
    bufPos := currBufPos;
    if bufPos.Some? {
      bufPos := Some(buf.pos);
    }
    if id != MIDI {
      return bufPos, Failure(InvalidID(id));
    }
    var size := ReadI32Be(buf);
    if !readData {
      buf.Seek(size);
      return bufPos, Success(None);
    }
    var data := buf.ReadExact(size);
    r := Success(Some(MIDIDataChunk(size, data)));
  }

  method ParseAudioRecording(buf: Cursor, id: ChunkId, readData: bool, currBufPos: Option<nat>)
    returns (bufPos: Option<nat>, r: Result<Option<AudioRecordingChunk>, ChunkError>)
    requires AudioRecordingChunkAt(buf.data, buf.pos, id, readData).Some?
    modifies buf
    ensures bufPos == Recorded(currBufPos, old(buf.pos))
    ensures Parsed(r, buf.pos) == AudioRecordingChunkAt(buf.data, old(buf.pos), id, readData).value
  {
    bufPos := currBufPos;
    if bufPos.Some? {
      bufPos := Some(buf.pos);
    }
    if id != RECORDING {
      return bufPos, Failure(InvalidID(id));
    }
    var size := ReadI32Be(buf);
    if size != 24 {
      return bufPos, Failure(InvalidSize(24, size));
    }
    if !readData {
      buf.Seek(24);
      return bufPos, Success(None);
    }
    var data := buf.ReadExact(24);
    r := Success(Some(AudioRecordingChunk(size, data)));
  }

  method ParseApplicationSpecific(buf: Cursor, id: ChunkId, readData: bool, currBufPos: Option<nat>)
    returns (bufPos: Option<nat>, r: Result<Option<ApplicationSpecificChunk>, ChunkError>)
    requires ApplicationSpecificChunkAt(buf.data, buf.pos, id, readData).Some?
    modifies buf
    ensures bufPos == Recorded(currBufPos, old(buf.pos))
    ensures Parsed(r, buf.pos) == ApplicationSpecificChunkAt(buf.data, old(buf.pos), id, readData).value
  {
    bufPos := currBufPos;
    if bufPos.Some? {
      bufPos := Some(buf.pos);
    }
    if id != APPLICATION {
      return bufPos, Failure(InvalidID(id));
    }
    var size := ReadI32Be(buf);
    var applicationSignature := ReadChunkId(buf);
    if !readData {
      buf.Seek(size - 4);
      return bufPos, Success(None);
    }
    var data := buf.ReadExact(size - 4);
    r := Success(Some(ApplicationSpecificChunk(size, applicationSignature, ToSignedBytes(data))));
  }

  /** `Comment::from_reader`: the text is not followed by a pad byte here. */
  method ReadComment(r: Cursor) returns (c: Comment)
    requires CommentAt(r.data, r.pos).Some?
    modifies r
    ensures (c, r.pos) == CommentAt(r.data, old(r.pos)).value
  {
    var timestamp := ReadU32Be(r);
    var markerId := ReadI16Be(r);
    var count := ReadU16Be(r);
    var text := r.ReadExact(count);
    c := Comment(timestamp, markerId, count, text);
  }

  method ParseComments(buf: Cursor, id: ChunkId, readData: bool, currBufPos: Option<nat>)
    returns (bufPos: Option<nat>, r: Result<Option<CommentsChunk>, ChunkError>)
    requires CommentsChunkAt(buf.data, buf.pos, id).Some?
    modifies buf
    ensures bufPos == Recorded(currBufPos, old(buf.pos))
    ensures Parsed(r, buf.pos) == CommentsChunkAt(buf.data, old(buf.pos), id).value
  {
    bufPos := currBufPos;
    if bufPos.Some? {
      bufPos := Some(buf.pos);
    }
    if id != COMMENTS {
      return bufPos, Failure(InvalidID(id));
    }
    var size := ReadI32Be(buf);
    var numComments := ReadU16Be(buf);
    // read_data is not consulted: the comments are always decoded
    ghost var first := buf.pos;
    var comments: seq<Comment> := [];
    for i := 0 to numComments
      invariant CommentsAt(buf.data, first, i) == Some((comments, buf.pos))
    {
      ItemsPrefix(buf.data, first, numComments, i, CommentAt);
      var c := ReadComment(buf);
      comments := comments + [c];
    }
    r := Success(Some(CommentsChunk(size, numComments, comments)));
  }

  method ParseID3v2(buf: Cursor, id: ChunkId, readData: bool, currBufPos: Option<nat>,
                    readTag: (seq<Byte>, nat) -> TagRead)
    returns (bufPos: Option<nat>, r: Result<Option<ID3v2Chunk>, ChunkError>)
    requires ID3v2ChunkAt(buf.data, buf.pos, id, readTag).Some?
    modifies buf
    ensures bufPos == Recorded(currBufPos, old(buf.pos))
    ensures Parsed(r, buf.pos) == ID3v2ChunkAt(buf.data, old(buf.pos), id, readTag).value
  {
    bufPos := currBufPos;
    if bufPos.Some? {
      bufPos := Some(buf.pos);
    }
    if id[0..3] != ID3 && id[1..] != ID3 {
      return bufPos, Failure(InvalidID(id));
    }
    // peek at the two version bytes that follow the three marker bytes
    buf.Seek(3);
    var version := buf.ReadExact(2);
    buf.Seek(-5);
    if version[0] > 4 || version[1] != 0 {
      return bufPos, Failure(InvalidID3Version(version));
    }
    // the external codec reads the whole tag from the marker on
    var tagRead := readTag(buf.data, buf.pos);
    buf.Seek(tagRead.length);
    r := Success(Some(ID3v2Chunk(tagRead.tag)));
  }

  /**
   * The decoder of `kind`, as `T::parse` is chosen by the type argument of
   * `read_chunk`, with its value wrapped into the closed sum of chunks.
   */
  method ParseChunk(buf: Cursor, kind: ChunkKind, id: ChunkId, readData: bool, currBufPos: Option<nat>,
                    codecs: Codecs)
    returns (bufPos: Option<nat>, r: Result<Option<AnyChunk>, ChunkError>)
    requires ParseKind(kind, buf.data, buf.pos, id, readData, codecs).Some?
    modifies buf
    ensures bufPos == Recorded(currBufPos, old(buf.pos))
    ensures Parsed(r, buf.pos) == ParseKind(kind, buf.data, old(buf.pos), id, readData, codecs).value
  {
    match kind
    case FormKind =>
      var r0;
      bufPos, r0 := ParseForm(buf, id, readData, currBufPos);
      r := Lift(r0, c => FormValue(c));
    case CommonKind =>
      var r0;
      bufPos, r0 := ParseCommon(buf, id, readData, currBufPos, codecs.extendedOk);
      r := Lift(r0, c => CommonValue(c));
    case SoundKind =>
      var r0;
      bufPos, r0 := ParseSoundData(buf, id, readData, currBufPos);
      r := Lift(r0, c => SoundValue(c));
    case MarkerKind =>
      var r0;
      bufPos, r0 := ParseMarker(buf, id, readData, currBufPos);
      r := Lift(r0, c => MarkerValue(c));
    case InstrumentKind =>
      var r0;
      bufPos, r0 := ParseInstrument(buf, id, readData, currBufPos);
      r := Lift(r0, c => InstrumentValue(c));
    case MidiKind =>
      var r0;
      bufPos, r0 := ParseMIDIData(buf, id, readData, currBufPos);
      r := Lift(r0, c => MidiValue(c));
    case RecordingKind =>
      var r0;
      bufPos, r0 := ParseAudioRecording(buf, id, readData, currBufPos);
      r := Lift(r0, c => RecordingValue(c));
    case ApplicationKind =>
      var r0;
      bufPos, r0 := ParseApplicationSpecific(buf, id, readData, currBufPos);
      r := Lift(r0, c => ApplicationValue(c));
    case CommentsKind =>
      var r0;
      bufPos, r0 := ParseComments(buf, id, readData, currBufPos);
      r := Lift(r0, c => CommentsValue(c));
    case TextKind =>
      var r0;
      bufPos, r0 := ParseText(buf, id, readData, currBufPos);
      r := Lift(r0, c => TextValue(c));
    case Id3Kind =>
      var r0;
      bufPos, r0 := ParseID3v2(buf, id, readData, currBufPos, codecs.readTag);
      r := Lift(r0, c => Id3Value(c));
  }
}
