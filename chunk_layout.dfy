/**
 * Writers for each chunk body, laid out as the decoders of ChunkSpec expect
 * it (big-endian, two's complement, Pascal strings and text padded to an
 * even length), and the round trips: wherever a writer's bytes lie in the
 * stream, the decoder started there reads the value back unchanged and
 * stops exactly at the writer's end.
 */
module ChunkLayout {
  import opened Wrappers
  import opened Bytes
  import opened Ids
  import opened ChunkTypes
  import opened Form
  import opened Primitives
  import opened ChunkSpec

  // ---------------------------------------------------------------------
  // Counted lists, for any item decoder

  /** The pieces one after the other, in order. */
  function Concat(parts: seq<seq<Byte>>): (b: seq<Byte>)
    decreases |parts|
  {
    if parts == [] then [] else Concat(parts[..|parts| - 1]) + parts[|parts| - 1]
  }

  /** Wherever `part` lies in the bytes, `item` decodes `x` from it and stops at its end. */
  ghost predicate ReadsBack<T>(item: ItemReader<T>, x: T, part: seq<Byte>)
  {
    forall data: seq<Byte>, r: nat {:trigger Placed(data, r, part)} ::
      Placed(data, r, part) ==> item(data, r) == Some((x, r + |part|))
  }

  lemma {:induction false} ConcatInit(parts: seq<seq<Byte>>)
    requires parts != []
    ensures Concat(parts) == Concat(parts[..|parts| - 1]) + parts[|parts| - 1]
  {
  }

  /** The pieces before the last read back when all of them do. */
  lemma ReadsBackInit<T>(item: ItemReader<T>, xs: seq<T>, parts: seq<seq<Byte>>, xs': seq<T>, parts': seq<seq<Byte>>)
    requires |parts| == |xs| > 0
    requires forall i :: 0 <= i < |xs| ==> ReadsBack(item, xs[i], parts[i])
    requires xs' == xs[..|xs| - 1] && parts' == parts[..|xs| - 1]
    ensures forall i :: 0 <= i < |xs'| ==> ReadsBack(item, xs'[i], parts'[i])
  {
  }

  lemma ReadsBackAt<T>(item: ItemReader<T>, x: T, part: seq<Byte>, data: seq<Byte>, r: nat)
    requires ReadsBack(item, x, part) && Placed(data, r, part)
    ensures item(data, r) == Some((x, r + |part|))
  {
  }

  /** One more item read where the others end extends the list. */
  lemma ItemsSnoc<T>(data: seq<Byte>, q: nat, init: seq<T>, x: T, r: nat, r': nat, item: ItemReader<T>)
    requires ItemsAt(data, q, |init|, item) == Some((init, r))
    requires item(data, r) == Some((x, r'))
    ensures ItemsAt(data, q, |init| + 1, item) == Some((init + [x], r'))
  {
  }

  /** When every item reads back from its own piece, the list reads back from the pieces in order. */
  lemma {:induction false} ItemsRoundTrip<T>(data: seq<Byte>, q: nat, xs: seq<T>, parts: seq<seq<Byte>>,
                                             item: ItemReader<T>)
    requires |parts| == |xs|
    requires forall i :: 0 <= i < |xs| ==> ReadsBack(item, xs[i], parts[i])
    requires Placed(data, q, Concat(parts))
    ensures ItemsAt(data, q, |xs|, item) == Some((xs, q + |Concat(parts)|))
    decreases |xs|
  {
    if xs != [] {
      var n := |xs|;
      var init, a, b := xs[..n - 1], Concat(parts[..n - 1]), parts[n - 1];
      ConcatInit(parts);
      SplitPlaced(data, q, a, b);
      ReadsBackInit(item, xs, parts, init, parts[..n - 1]);
      ItemsRoundTrip(data, q, init, parts[..n - 1], item);
      ReadsBackAt(item, xs[n - 1], b, data, q + |a|);
      ItemsSnoc(data, q, init, xs[n - 1], q + |a|, q + |a| + |b|, item);
      assert init + [xs[n - 1]] == xs;
    }
  }

  // ---------------------------------------------------------------------
  // FORM

  function FormBytes(size: Int32, formType: ChunkId): (b: seq<Byte>)
    ensures |b| == 8
  {
    I32Bytes(size) + formType
  }

  /** An AIFF form type is accepted, every other one is refused by name. */
  lemma FormRoundTrip(data: seq<Byte>, p: nat, size: Int32, formType: ChunkId)
    requires Placed(data, p, FormBytes(size, formType))
    ensures FormChunkAt(data, p, FORM, true)
         == Some(Parsed(if formType == AIFF then Success(Some(EmptyForm))
                        else Failure(InvalidFormType(formType)), p + 8))
  {
    SplitPlaced(data, p, I32Bytes(size), formType);
  }

  // ---------------------------------------------------------------------
  // COMM

  function CommonBytes(c: CommonChunk): (b: seq<Byte>)
    requires |c.sampleRate.bytes| == 10
    ensures |b| == 22
  {
    I32Bytes(c.size) + I16Bytes(c.numChannels) + U32Bytes(c.numSampleFrames)
    + I16Bytes(c.bitRate) + c.sampleRate.bytes
  }

  lemma CommonRoundTrip(data: seq<Byte>, p: nat, c: CommonChunk, extendedOk: seq<Byte> -> bool)
    requires |c.sampleRate.bytes| == 10 && extendedOk(c.sampleRate.bytes)
    requires Placed(data, p, CommonBytes(c))
    ensures CommonChunkAt(data, p, COMMON, true, extendedOk) == Some(Parsed(Success(Some(c)), p + 22))
  {
    var a := I32Bytes(c.size) + I16Bytes(c.numChannels);
    var b := a + U32Bytes(c.numSampleFrames);
    var d := b + I16Bytes(c.bitRate);
    SplitPlaced(data, p, d, c.sampleRate.bytes);
    SplitPlaced(data, p, b, I16Bytes(c.bitRate));
    SplitPlaced(data, p, a, U32Bytes(c.numSampleFrames));
    SplitPlaced(data, p, I32Bytes(c.size), I16Bytes(c.numChannels));
    I32Placed(data, p, c.size);
    I16Placed(data, p + 4, c.numChannels);
    U32Placed(data, p + 6, c.numSampleFrames);
    I16Placed(data, p + 10, c.bitRate);
  }

  // ---------------------------------------------------------------------
  // SSND

  function SoundBytes(c: SoundDataChunk): (b: seq<Byte>)
    requires c.size == |c.soundData|
    ensures |b| == 12 + |c.soundData|
  {
    I32Bytes(c.size) + U32Bytes(c.offset) + U32Bytes(c.blockSize) + c.soundData
  }

  lemma SoundRoundTrip(data: seq<Byte>, p: nat, c: SoundDataChunk)
    requires c.size == |c.soundData| && Placed(data, p, SoundBytes(c))
    ensures SoundDataChunkAt(data, p, SOUND, true) == Some(Parsed(Success(Some(c)), p + |SoundBytes(c)|))
  {
    var a := I32Bytes(c.size) + U32Bytes(c.offset);
    var b := a + U32Bytes(c.blockSize);
    SplitPlaced(data, p, b, c.soundData);
    SplitPlaced(data, p, a, U32Bytes(c.blockSize));
    SplitPlaced(data, p, I32Bytes(c.size), U32Bytes(c.offset));
    I32Placed(data, p, c.size);
    U32Placed(data, p + 4, c.offset);
    U32Placed(data, p + 8, c.blockSize);
  }

  // ---------------------------------------------------------------------
  // MARK

  predicate MarkerWritable(m: Marker)
  {
    |m.markerName| < 0x100
  }

  function MarkerBytes(m: Marker): (b: seq<Byte>)
    requires MarkerWritable(m)
    ensures |b| == 6 + |PStringBytes(m.markerName)|
  {
    I16Bytes(m.id) + U32Bytes(m.position) + PStringBytes(m.markerName)
  }

  lemma MarkerRoundTrip(data: seq<Byte>, r: nat, m: Marker)
    requires MarkerWritable(m) && Placed(data, r, MarkerBytes(m))
    ensures MarkerAt(data, r) == Some((m, r + |MarkerBytes(m)|))
  {
    var a := I16Bytes(m.id) + U32Bytes(m.position);
    SplitPlaced(data, r, a, PStringBytes(m.markerName));
    SplitPlaced(data, r, I16Bytes(m.id), U32Bytes(m.position));
    I16Placed(data, r, m.id);
    U32Placed(data, r + 2, m.position);
    PStringRoundTrip(data, r + 6, m.markerName);
  }

  function MarkerParts(ms: seq<Marker>): (parts: seq<seq<Byte>>)
    requires forall i :: 0 <= i < |ms| ==> MarkerWritable(ms[i])
    ensures |parts| == |ms|
    ensures forall i :: 0 <= i < |ms| ==> parts[i] == MarkerBytes(ms[i])
  {
    seq(|ms|, i requires 0 <= i < |ms| => MarkerBytes(ms[i]))
  }

  /** The markers one after the other, in order. */
  function MarkersBytes(ms: seq<Marker>): seq<Byte>
    requires forall i :: 0 <= i < |ms| ==> MarkerWritable(ms[i])
  {
    Concat(MarkerParts(ms))
  }

  lemma MarkersReadBack(ms: seq<Marker>)
    requires forall i :: 0 <= i < |ms| ==> MarkerWritable(ms[i])
    ensures forall i :: 0 <= i < |ms| ==> ReadsBack(MarkerAt, ms[i], MarkerParts(ms)[i])
  {
    forall i, data: seq<Byte>, r: nat | 0 <= i < |ms| && Placed(data, r, MarkerParts(ms)[i])
      ensures MarkerAt(data, r) == Some((ms[i], r + |MarkerParts(ms)[i]|))
    {
      MarkerRoundTrip(data, r, ms[i]);
    }
  }

  /** The markers read back in order. */
  lemma MarkersRoundTrip(data: seq<Byte>, q: nat, ms: seq<Marker>)
    requires forall i :: 0 <= i < |ms| ==> MarkerWritable(ms[i])
    requires Placed(data, q, MarkersBytes(ms))
    ensures MarkersAt(data, q, |ms|) == Some((ms, q + |MarkersBytes(ms)|))
  {
    MarkersReadBack(ms);
    ItemsRoundTrip(data, q, ms, MarkerParts(ms), MarkerAt);
  }

  predicate MarkerChunkWritable(c: MarkerChunk)
  {
    c.numMarkers == |c.markers| && forall i :: 0 <= i < |c.markers| ==> MarkerWritable(c.markers[i])
  }

  function MarkerChunkBytes(c: MarkerChunk): (b: seq<Byte>)
    requires MarkerChunkWritable(c)
    ensures |b| == 6 + |MarkersBytes(c.markers)|
  {
    I32Bytes(c.size) + U16Bytes(c.numMarkers) + MarkersBytes(c.markers)
  }

  lemma MarkerChunkRoundTrip(data: seq<Byte>, p: nat, c: MarkerChunk)
    requires MarkerChunkWritable(c) && Placed(data, p, MarkerChunkBytes(c))
    ensures MarkerChunkAt(data, p, MARKER) == Some(Parsed(Success(Some(c)), p + |MarkerChunkBytes(c)|))
  {
    var a := I32Bytes(c.size) + U16Bytes(c.numMarkers);
    SplitPlaced(data, p, a, MarkersBytes(c.markers));
    SplitPlaced(data, p, I32Bytes(c.size), U16Bytes(c.numMarkers));
    I32Placed(data, p, c.size);
    U16Placed(data, p + 4, c.numMarkers);
    MarkersRoundTrip(data, p + 6, c.markers);
  }

  // ---------------------------------------------------------------------
  // COMT

  predicate CommentWritable(c: Comment)
  {
    c.count == |c.text|
  }

  function CommentBytes(c: Comment): (b: seq<Byte>)
    requires CommentWritable(c)
    ensures |b| == 8 + |c.text|
  {
    U32Bytes(c.timestamp) + I16Bytes(c.markerId) + U16Bytes(c.count) + c.text
  }

  lemma CommentRoundTrip(data: seq<Byte>, r: nat, c: Comment)
    requires CommentWritable(c) && Placed(data, r, CommentBytes(c))
    ensures CommentAt(data, r) == Some((c, r + |CommentBytes(c)|))
  {
    var a := U32Bytes(c.timestamp) + I16Bytes(c.markerId);
    var b := a + U16Bytes(c.count);
    SplitPlaced(data, r, b, c.text);
    SplitPlaced(data, r, a, U16Bytes(c.count));
    SplitPlaced(data, r, U32Bytes(c.timestamp), I16Bytes(c.markerId));
    U32Placed(data, r, c.timestamp);
    I16Placed(data, r + 4, c.markerId);
    U16Placed(data, r + 6, c.count);
  }

  function CommentParts(cs: seq<Comment>): (parts: seq<seq<Byte>>)
    requires forall i :: 0 <= i < |cs| ==> CommentWritable(cs[i])
    ensures |parts| == |cs|
    ensures forall i :: 0 <= i < |cs| ==> parts[i] == CommentBytes(cs[i])
  {
    seq(|cs|, i requires 0 <= i < |cs| => CommentBytes(cs[i]))
  }

  /** The comments one after the other, in order. */
  function CommentsBytes(cs: seq<Comment>): seq<Byte>
    requires forall i :: 0 <= i < |cs| ==> CommentWritable(cs[i])
  {
    Concat(CommentParts(cs))
  }

  lemma CommentsReadBack(cs: seq<Comment>)
    requires forall i :: 0 <= i < |cs| ==> CommentWritable(cs[i])
    ensures forall i :: 0 <= i < |cs| ==> ReadsBack(CommentAt, cs[i], CommentParts(cs)[i])
  {
    forall i, data: seq<Byte>, r: nat | 0 <= i < |cs| && Placed(data, r, CommentParts(cs)[i])
      ensures CommentAt(data, r) == Some((cs[i], r + |CommentParts(cs)[i]|))
    {
      CommentRoundTrip(data, r, cs[i]);
    }
  }

  /** The comments read back in order. */
  lemma CommentsRoundTrip(data: seq<Byte>, q: nat, cs: seq<Comment>)
    requires forall i :: 0 <= i < |cs| ==> CommentWritable(cs[i])
    requires Placed(data, q, CommentsBytes(cs))
    ensures CommentsAt(data, q, |cs|) == Some((cs, q + |CommentsBytes(cs)|))
  {
    CommentsReadBack(cs);
    ItemsRoundTrip(data, q, cs, CommentParts(cs), CommentAt);
  }

  predicate CommentsChunkWritable(c: CommentsChunk)
  {
    c.numComments == |c.comments| && forall i :: 0 <= i < |c.comments| ==> CommentWritable(c.comments[i])
  }

  function CommentsChunkBytes(c: CommentsChunk): (b: seq<Byte>)
    requires CommentsChunkWritable(c)
    ensures |b| == 6 + |CommentsBytes(c.comments)|
  {
    I32Bytes(c.size) + U16Bytes(c.numComments) + CommentsBytes(c.comments)
  }

  lemma CommentsChunkRoundTrip(data: seq<Byte>, p: nat, c: CommentsChunk)
    requires CommentsChunkWritable(c) && Placed(data, p, CommentsChunkBytes(c))
    ensures CommentsChunkAt(data, p, COMMENTS) == Some(Parsed(Success(Some(c)), p + |CommentsChunkBytes(c)|))
  {
    var a := I32Bytes(c.size) + U16Bytes(c.numComments);
    SplitPlaced(data, p, a, CommentsBytes(c.comments));
    SplitPlaced(data, p, I32Bytes(c.size), U16Bytes(c.numComments));
    I32Placed(data, p, c.size);
    U16Placed(data, p + 4, c.numComments);
    CommentsRoundTrip(data, p + 6, c.comments);
  }

  // ---------------------------------------------------------------------
  // NAME, AUTH, (c), ANNO

  /** The tag each text chunk type is written under. */
  function TextId(t: TextChunkType): (id: ChunkId)
    ensures TextChunkTypeOf(id) == Some(t)
  {
    match t
    case Name => NAME
    case Author => AUTHOR
    case Copyright => COPYRIGHT
    case Annotation => ANNOTATION
  }

  function TextPad(c: TextChunk): (b: seq<Byte>)
    ensures |b| == |c.text| % 2
  {
    if |c.text| % 2 == 1 then [0] else []
  }

  function TextBytes(c: TextChunk): (b: seq<Byte>)
    requires c.size == |c.text|
    ensures |b| == 4 + |c.text| + |c.text| % 2
  {
    I32Bytes(c.size) + c.text + TextPad(c)
  }

  lemma TextRoundTrip(data: seq<Byte>, p: nat, c: TextChunk)
    requires c.size == |c.text| && Placed(data, p, TextBytes(c))
    ensures TextChunkAt(data, p, TextId(c.chunkType), true) == Some(Parsed(Success(Some(c)), p + |TextBytes(c)|))
  {
    SplitPlaced(data, p, I32Bytes(c.size) + c.text, TextPad(c));
    SplitPlaced(data, p, I32Bytes(c.size), c.text);
    I32Placed(data, p, c.size);
  }

  // ---------------------------------------------------------------------
  // INST

  function LoopBytes(l: Loop): (b: seq<Byte>)
    ensures |b| == 6
  {
    I16Bytes(l.playMode) + I16Bytes(l.beginLoop) + I16Bytes(l.endLoop)
  }

  lemma LoopRoundTrip(data: seq<Byte>, q: nat, l: Loop)
    requires Placed(data, q, LoopBytes(l))
    ensures q + 6 <= |data| && LoopAt(data, q) == l
  {
    SplitPlaced(data, q, I16Bytes(l.playMode) + I16Bytes(l.beginLoop), I16Bytes(l.endLoop));
    SplitPlaced(data, q, I16Bytes(l.playMode), I16Bytes(l.beginLoop));
    I16Placed(data, q, l.playMode);
    I16Placed(data, q + 2, l.beginLoop);
    I16Placed(data, q + 4, l.endLoop);
  }

  function Notes(c: InstrumentChunk): seq<Int8>
  {
    [c.baseNote, c.detune, c.lowNote, c.highNote, c.lowVelocity, c.highVelocity]
  }

  function InstrumentBytes(c: InstrumentChunk): (b: seq<Byte>)
    ensures |b| == 24
  {
    I32Bytes(c.size) + UnsignedBytes(Notes(c)) + I16Bytes(c.gain)
    + LoopBytes(c.sustainLoop) + LoopBytes(c.releaseLoop)
  }

  lemma InstrumentRoundTrip(data: seq<Byte>, p: nat, c: InstrumentChunk)
    requires Placed(data, p, InstrumentBytes(c))
    ensures InstrumentChunkAt(data, p, INSTRUMENT) == Some(Parsed(Success(Some(c)), p + 24))
  {
    var a := I32Bytes(c.size) + UnsignedBytes(Notes(c));
    var b := a + I16Bytes(c.gain);
    var d := b + LoopBytes(c.sustainLoop);
    SplitPlaced(data, p, d, LoopBytes(c.releaseLoop));
    SplitPlaced(data, p, b, LoopBytes(c.sustainLoop));
    SplitPlaced(data, p, a, I16Bytes(c.gain));
    SplitPlaced(data, p, I32Bytes(c.size), UnsignedBytes(Notes(c)));
    I32Placed(data, p, c.size);
    I8sPlaced(data, p + 4, Notes(c));
    var notes := Notes(c);
    assert I8At(data, p + 4) == notes[0] && I8At(data, p + 5) == notes[1];
    assert I8At(data, p + 6) == notes[2] && I8At(data, p + 7) == notes[3];
    assert I8At(data, p + 8) == notes[4] && I8At(data, p + 9) == notes[5];
    I16Placed(data, p + 10, c.gain);
    LoopRoundTrip(data, p + 12, c.sustainLoop);
    LoopRoundTrip(data, p + 18, c.releaseLoop);
  }

  // ---------------------------------------------------------------------
  // MIDI, AESD, APPL

  function MIDIBytes(c: MIDIDataChunk): (b: seq<Byte>)
    requires c.size == |c.data|
    ensures |b| == 4 + |c.data|
  {
    I32Bytes(c.size) + c.data
  }

  lemma MIDIRoundTrip(data: seq<Byte>, p: nat, c: MIDIDataChunk)
    requires c.size == |c.data| && Placed(data, p, MIDIBytes(c))
    ensures MIDIDataChunkAt(data, p, MIDI, true) == Some(Parsed(Success(Some(c)), p + |MIDIBytes(c)|))
  {
    SplitPlaced(data, p, I32Bytes(c.size), c.data);
    I32Placed(data, p, c.size);
  }

  function RecordingBytes(c: AudioRecordingChunk): (b: seq<Byte>)
    requires c.size == 24 == |c.data|
    ensures |b| == 28
  {
    I32Bytes(c.size) + c.data
  }

  lemma RecordingRoundTrip(data: seq<Byte>, p: nat, c: AudioRecordingChunk)
    requires c.size == 24 == |c.data| && Placed(data, p, RecordingBytes(c))
    ensures AudioRecordingChunkAt(data, p, RECORDING, true) == Some(Parsed(Success(Some(c)), p + 28))
  {
    SplitPlaced(data, p, I32Bytes(c.size), c.data);
    I32Placed(data, p, c.size);
  }

  function ApplicationBytes(c: ApplicationSpecificChunk): (b: seq<Byte>)
    requires c.size == 4 + |c.data|
    ensures |b| == 8 + |c.data|
  {
    I32Bytes(c.size) + c.applicationSignature + UnsignedBytes(c.data)
  }

  lemma ApplicationRoundTrip(data: seq<Byte>, p: nat, c: ApplicationSpecificChunk)
    requires c.size == 4 + |c.data| && Placed(data, p, ApplicationBytes(c))
    ensures ApplicationSpecificChunkAt(data, p, APPLICATION, true)
         == Some(Parsed(Success(Some(c)), p + |ApplicationBytes(c)|))
  {
    SplitPlaced(data, p, I32Bytes(c.size) + c.applicationSignature, UnsignedBytes(c.data));
    SplitPlaced(data, p, I32Bytes(c.size), c.applicationSignature);
    I32Placed(data, p, c.size);
    SignedBytesRoundTrip(c.data);
  }
}
