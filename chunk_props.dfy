/**
 * What the chunk decoders promise, stated over ChunkSpec for every input:
 * the tag gate, the agreement of skip and decode modes on the bytes they
 * consume, the payload lengths, and the size, form-type and version gates.
 */
module ChunkProps {
  import opened Wrappers
  import opened Bytes
  import opened Ids
  import opened ChunkTypes
  import opened Form
  import opened ChunkSpec

  /** The decoders whose layout does not depend on `read_data`. */
  predicate IgnoresReadData(kind: ChunkKind)
  {
    kind == MarkerKind || kind == InstrumentKind || kind == CommentsKind || kind == Id3Kind
  }

  /**
   * A decoder rejects a tag with `InvalidID(id)`, consuming nothing, exactly
   * when the tag is not one it accepts.
   */
  lemma TagGate(kind: ChunkKind, data: seq<Byte>, p: nat, id: ChunkId, readData: bool, codecs: Codecs)
    ensures ParseKind(kind, data, p, id, readData, codecs) == Some(Parsed(Failure(InvalidID(id)), p))
            <==> !Accepts(kind, id)
  {
    match kind
    case FormKind =>
    case CommonKind =>
    case SoundKind =>
    case MarkerKind =>
    case InstrumentKind =>
    case MidiKind =>
    case RecordingKind =>
    case ApplicationKind =>
    case CommentsKind =>
    case TextKind =>
    case Id3Kind =>
  }

  /**
   * Skip mode and decode mode fail on the same inputs and leave the cursor
   * at the same place; a decoder that ignores `read_data` returns the same.
   */
  lemma SkipMatchesDecode(kind: ChunkKind, data: seq<Byte>, p: nat, id: ChunkId, codecs: Codecs)
    ensures ParseKind(kind, data, p, id, false, codecs).Some? <==> ParseKind(kind, data, p, id, true, codecs).Some?
    ensures ParseKind(kind, data, p, id, false, codecs).Some? ==>
      ParseKind(kind, data, p, id, false, codecs).value.next == ParseKind(kind, data, p, id, true, codecs).value.next
    ensures IgnoresReadData(kind) ==> ParseKind(kind, data, p, id, false, codecs) == ParseKind(kind, data, p, id, true, codecs)
  {
    match kind
    case FormKind =>
    case CommonKind =>
    case SoundKind =>
    case MarkerKind =>
    case InstrumentKind =>
    case MidiKind =>
    case RecordingKind =>
    case ApplicationKind =>
    case CommentsKind =>
    case TextKind =>
    case Id3Kind =>
  }

  /**
   * In skip mode only the decoders that ignore `read_data` produce a value;
   * those never succeed without one.
   */
  lemma SkipYieldsNoValue(kind: ChunkKind, data: seq<Byte>, p: nat, id: ChunkId, readData: bool, codecs: Codecs)
    requires ParseKind(kind, data, p, id, readData, codecs).Some?
    requires ParseKind(kind, data, p, id, readData, codecs).value.result.Success?
    ensures !readData && !IgnoresReadData(kind) ==> ParseKind(kind, data, p, id, readData, codecs).value.result.value.None?
    ensures IgnoresReadData(kind) || readData ==> ParseKind(kind, data, p, id, readData, codecs).value.result.value.Some?
  {
    match kind
    case FormKind =>
    case CommonKind =>
    case SoundKind =>
    case MarkerKind =>
    case InstrumentKind =>
    case MidiKind =>
    case RecordingKind =>
    case ApplicationKind =>
    case CommentsKind =>
    case TextKind =>
    case Id3Kind =>
  }

  /** A value produced by the decoder of `kind` is a chunk of that kind. */
  lemma ParseKindKind(kind: ChunkKind, data: seq<Byte>, p: nat, id: ChunkId, readData: bool, codecs: Codecs,
                      c: AnyChunk)
    requires ParseKind(kind, data, p, id, readData, codecs).Some?
    requires ParseKind(kind, data, p, id, readData, codecs).value.result == Success(Some(c))
    ensures KindOf(c) == kind
  {
    match kind
    case FormKind =>
    case CommonKind =>
    case SoundKind =>
    case MarkerKind =>
    case InstrumentKind =>
    case MidiKind =>
    case RecordingKind =>
    case ApplicationKind =>
    case CommentsKind =>
    case TextKind =>
    case Id3Kind =>
  }

  /**
   * FORM reads eight bytes after its tag in both modes. Decoding yields the
   * empty aggregate exactly when the form type is "AIFF"; any other type,
   * "AIFC" included, is refused with those four bytes.
   */
  lemma FormTypeGate(data: seq<Byte>, p: nat, readData: bool)
    requires p + 8 <= |data|
    ensures FormChunkAt(data, p, FORM, readData).Some?
    ensures FormChunkAt(data, p, FORM, readData).value.next == p + 8
    ensures !readData ==> FormChunkAt(data, p, FORM, readData).value.result == Success(None)
    ensures readData ==>
      (FormChunkAt(data, p, FORM, readData).value.result == Success(Some(EmptyForm)) <==> data[p + 4..p + 8] == AIFF)
    ensures readData && data[p + 4..p + 8] != AIFF ==>
      FormChunkAt(data, p, FORM, readData).value.result == Failure(InvalidFormType(data[p + 4..p + 8]))
  {
  }

  /** The aggregate FORM starts from has nothing set. */
  lemma EmptyFormHasNothing()
    ensures EmptyForm.common.None? && EmptyForm.sound.None? && EmptyForm.comments.None?
    ensures EmptyForm.instrument.None? && EmptyForm.recording.None?
    ensures EmptyForm.texts.None? && EmptyForm.markers.None? && EmptyForm.midi.None? && EmptyForm.apps.None?
  {
  }

  /** In decode mode FORM never succeeds without the aggregate. */
  lemma FormDecodeNeverEmpty(data: seq<Byte>, p: nat, id: ChunkId, codecs: Codecs)
    requires ParseKind(FormKind, data, p, id, true, codecs).Some?
    ensures ParseKind(FormKind, data, p, id, true, codecs).value.result != Success(None)
  {
  }

  /** COMM consumes 22 bytes after its tag whatever the mode and the sample rate. */
  lemma CommonConsumption(data: seq<Byte>, p: nat, readData: bool, extendedOk: seq<Byte> -> bool)
    requires CommonChunkAt(data, p, COMMON, readData, extendedOk).Some?
    ensures CommonChunkAt(data, p, COMMON, readData, extendedOk).value.next == p + 22
    ensures readData && !extendedOk(data[p + 12..p + 22]) ==>
      CommonChunkAt(data, p, COMMON, readData, extendedOk).value.result == Failure(InvalidData("Extended Precision"))
  {
  }

  /** SSND consumes 12 + size bytes; the decoded sound data is exactly `size` bytes. */
  lemma SoundConsumption(data: seq<Byte>, p: nat, readData: bool)
    requires SoundDataChunkAt(data, p, SOUND, readData).Some?
    ensures p + 12 <= |data| && I32At(data, p) >= 0
    ensures SoundDataChunkAt(data, p, SOUND, readData).value.next == p + 12 + I32At(data, p)
    ensures readData ==> SoundDataChunkAt(data, p, SOUND, readData).value.result.Success?
    ensures readData ==>
      var c := SoundDataChunkAt(data, p, SOUND, readData).value.result.value.value;
      |c.soundData| == c.size == I32At(data, p)
  {
  }

  /** MIDI consumes 4 + size bytes; the decoded data is exactly `size` bytes. */
  lemma MidiConsumption(data: seq<Byte>, p: nat, readData: bool)
    requires MIDIDataChunkAt(data, p, MIDI, readData).Some?
    ensures p + 4 <= |data| && I32At(data, p) >= 0
    ensures MIDIDataChunkAt(data, p, MIDI, readData).value.next == p + 4 + I32At(data, p)
    ensures readData ==> MIDIDataChunkAt(data, p, MIDI, readData).value.result.Success?
    ensures readData ==>
      var c := MIDIDataChunkAt(data, p, MIDI, readData).value.result.value.value;
      |c.data| == c.size == I32At(data, p)
  {
  }

  /**
   * APPL consumes 4 + size bytes: a four-byte signature and `size - 4`
   * payload bytes, each reinterpreted as `i8`.
   */
  lemma ApplicationConsumption(data: seq<Byte>, p: nat, readData: bool)
    requires ApplicationSpecificChunkAt(data, p, APPLICATION, readData).Some?
    ensures p + 8 <= |data| && I32At(data, p) >= 4
    ensures ApplicationSpecificChunkAt(data, p, APPLICATION, readData).value.next == p + 4 + I32At(data, p)
    ensures readData ==> ApplicationSpecificChunkAt(data, p, APPLICATION, readData).value.result.Success?
    ensures readData ==>
      var c := ApplicationSpecificChunkAt(data, p, APPLICATION, readData).value.result.value.value;
      && |c.data| == c.size - 4
      && c.applicationSignature == data[p + 4..p + 8]
      && forall i :: 0 <= i < |c.data| ==> c.data[i] == ToSigned8(data[p + 8 + i])
  {
  }

  /**
   * A text chunk consumes 4 + size bytes and one pad byte when size is odd,
   * so it always ends an even number of bytes after its size field; the
   * decoded text is exactly `size` bytes and its type is the one its tag names.
   */
  lemma TextConsumption(data: seq<Byte>, p: nat, id: ChunkId, readData: bool)
    requires TextChunkTypeOf(id).Some? && TextChunkAt(data, p, id, readData).Some?
    ensures p + 4 <= |data| && I32At(data, p) >= 0
    ensures TextChunkAt(data, p, id, readData).value.next == p + 4 + I32At(data, p) + I32At(data, p) % 2
    ensures (TextChunkAt(data, p, id, readData).value.next - p) % 2 == 0
    ensures readData ==> TextChunkAt(data, p, id, readData).value.result.Success?
    ensures readData ==>
      var c := TextChunkAt(data, p, id, readData).value.result.value.value;
      |c.text| == c.size == I32At(data, p) && Some(c.chunkType) == TextChunkTypeOf(id)
  {
  }

  /** The four text tags map to the four text types and nothing else does. */
  lemma TextTypes(id: ChunkId)
    ensures TextChunkTypeOf(id) == Some(Name) <==> id == NAME
    ensures TextChunkTypeOf(id) == Some(Author) <==> id == AUTHOR
    ensures TextChunkTypeOf(id) == Some(Copyright) <==> id == COPYRIGHT
    ensures TextChunkTypeOf(id) == Some(Annotation) <==> id == ANNOTATION
  {
  }

  /**
   * AESD refuses any size but 24 after reading only the size field; with
   * size 24 it consumes exactly 24 more bytes in both modes.
   */
  lemma RecordingSizeGate(data: seq<Byte>, p: nat, readData: bool)
    requires p + 4 <= |data|
    ensures AudioRecordingChunkAt(data, p, RECORDING, readData) == Some(Parsed(Failure(InvalidSize(24, I32At(data, p))), p + 4))
            <==> I32At(data, p) != 24
    ensures I32At(data, p) == 24 && p + 28 <= |data| ==>
      AudioRecordingChunkAt(data, p, RECORDING, readData).Some? &&
      AudioRecordingChunkAt(data, p, RECORDING, readData).value.next == p + 28
    ensures I32At(data, p) == 24 && p + 28 <= |data| && readData ==>
      AudioRecordingChunkAt(data, p, RECORDING, readData).value.result == Success(Some(AudioRecordingChunk(24, data[p + 4..p + 28])))
  {
  }

  /** INST always consumes 24 bytes after its tag and always yields a value. */
  lemma InstrumentConsumption(data: seq<Byte>, p: nat)
    ensures InstrumentChunkAt(data, p, INSTRUMENT).Some? <==> p + 24 <= |data|
    ensures p + 24 <= |data| ==> InstrumentChunkAt(data, p, INSTRUMENT).value.next == p + 24
    ensures p + 24 <= |data| ==> InstrumentChunkAt(data, p, INSTRUMENT).value.result.Success?
    ensures p + 24 <= |data| ==> InstrumentChunkAt(data, p, INSTRUMENT).value.result.value.Some?
  {
  }

  /**
   * MARK and COMT yield exactly as many entries as their count field says,
   * each decoded where the previous one ends.
   */
  lemma MarkerCount(data: seq<Byte>, p: nat)
    requires MarkerChunkAt(data, p, MARKER).Some?
    ensures MarkerChunkAt(data, p, MARKER).value.result.Success?
    ensures
      var c := MarkerChunkAt(data, p, MARKER).value.result.value.value;
      c.numMarkers == U16At(data, p + 4) && |c.markers| == c.numMarkers
      && MarkersAt(data, p + 6, c.numMarkers) == Some((c.markers, MarkerChunkAt(data, p, MARKER).value.next))
  {
  }

  lemma CommentCount(data: seq<Byte>, p: nat)
    requires CommentsChunkAt(data, p, COMMENTS).Some?
    ensures CommentsChunkAt(data, p, COMMENTS).value.result.Success?
    ensures
      var c := CommentsChunkAt(data, p, COMMENTS).value.result.value.value;
      c.numComments == U16At(data, p + 4) && |c.comments| == c.numComments
      && CommentsAt(data, p + 6, c.numComments) == Some((c.comments, CommentsChunkAt(data, p, COMMENTS).value.next))
  {
  }

  /** A comment consumes its eight header bytes and `count` text bytes, no pad. */
  lemma CommentConsumption(data: seq<Byte>, q: nat)
    requires CommentAt(data, q).Some?
    ensures
      var (c, r) := CommentAt(data, q).value;
      r == q + 8 + c.count && c.count == U16At(data, q + 6) && c.text == data[q + 8..r]
  {
  }

  /**
   * The embedded-tag decoder peeks the two version bytes and refuses a major
   * version above 4 or a non-zero minor version, leaving the cursor at the
   * marker; otherwise it hands the stream from the marker to the tag codec.
   */
  lemma Id3VersionGate(data: seq<Byte>, p: nat, id: ChunkId, readTag: (seq<Byte>, nat) -> TagRead)
    requires IsId3Marker(id) && p + 5 <= |data|
    ensures ID3v2ChunkAt(data, p, id, readTag) == Some(Parsed(Failure(InvalidID3Version(data[p + 3..p + 5])), p))
            <==> data[p + 3] > 4 || data[p + 4] != 0
    ensures data[p + 3] <= 4 && data[p + 4] == 0 && readTag(data, p).TagOk? && p + readTag(data, p).length <= |data| ==>
      ID3v2ChunkAt(data, p, id, readTag) == Some(Parsed(Success(Some(ID3v2Chunk(readTag(data, p).tag))), p + readTag(data, p).length))
  {
  }

  /** A decoder that succeeds leaves the cursor inside the bytes, never before where it started. */
  lemma ParseKindWithin(kind: ChunkKind, data: seq<Byte>, p: nat, id: ChunkId, readData: bool, codecs: Codecs)
    requires ParseKind(kind, data, p, id, readData, codecs).Some?
    requires ParseKind(kind, data, p, id, readData, codecs).value.result.Success?
    ensures p <= ParseKind(kind, data, p, id, readData, codecs).value.next <= |data|
  {
    match kind
    case FormKind =>
    case CommonKind =>
    case SoundKind =>
    case MarkerKind =>
    case InstrumentKind =>
    case MidiKind =>
    case RecordingKind =>
    case ApplicationKind =>
    case CommentsKind =>
    case TextKind =>
    case Id3Kind =>
  }
}
