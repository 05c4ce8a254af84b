/**
 * `AiffReader` of reader.rs: the cursor over the file, the aggregate and
 * the embedded tag a scan leaves, and the tag → offset cache. Its methods
 * are proved to do what Scan says: `ReadChunk` is `ReadChunkAt`, one pass of
 * the scan loop is `Step`, `AnalyzeData` ends in `ScanResult`.
 */
module Reader {
  import opened Wrappers
  import opened Bytes
  import opened ChunkTypes
  import opened Form
  import opened Cursors
  import opened Primitives
  import opened ChunkSpec
  import opened ChunkProps
  import opened Chunks
  import opened Scan

  /** Folds a decoded chunk into the aggregate with the setter or adder the dispatch uses for it. */
  method Absorb(form: FormChunk, c: AnyChunk)
    modifies form
    ensures form.Value() == Fold(old(form.Value()), c)
  {
    match c
    case CommonValue(x) => form.SetCommon(x);
    case SoundValue(x) => form.SetSound(x);
    case MarkerValue(x) => form.AddMarkerChunk(x);
    case InstrumentValue(x) => form.SetInstrument(x);
    case MidiValue(x) => form.AddMidiChunk(x);
    case RecordingValue(x) => form.SetRecording(x);
    case ApplicationValue(x) => form.AddAppChunk(x);
    case CommentsValue(x) => form.SetComments(x);
    case TextValue(x) => form.AddTextChunk(x);
    case FormValue(_) =>
    case Id3Value(_) =>
  }

  /** Bytes per sample point: the bit depth rounded up to whole bytes. */
  function BytesPerPoint(bitRate: nat): (n: nat)
    ensures (n - 1) * 8 < bitRate <= n * 8
  {
    bitRate / 8 + (if bitRate % 8 != 0 then 1 else 0)
  }

  class AiffReader {
    const buf: Cursor
    /** The external decoders the chunk decoders call. */
    const codecs: Codecs
    var formChunk: Option<FormData>
    var id3v2Tag: Option<Id3Tag>
    var formBufLocations: Cache

    /** The scan state the reader and an aggregate under construction stand for. */
    function State(form: FormChunk): ScanState
      reads this, buf, form
    {
      ScanState(buf.pos, form.Value(), id3v2Tag, formBufLocations)
    }

    constructor (source: seq<Byte>, codecs: Codecs)
      ensures fresh(buf) && buf.data == source && buf.pos == 0
      ensures this.codecs == codecs
      ensures formChunk.None? && id3v2Tag.None? && formBufLocations == map[]
    {
      buf := new Cursor(source);
      this.codecs := codecs;
      formChunk := None;
      id3v2Tag := None;
      formBufLocations := map[];
    }

    /**
     * `read_chunk`: the cached seek, the decoder of `kind` and the cache
     * update. An error from the decoder is unwrapped in the source, that is,
     * it panics; the precondition excludes it with the other panics.
     */
    method ReadChunk(kind: ChunkKind, readData: bool, recordFormPos: bool, chunkId: seq<Byte>)
      returns (c: Option<AnyChunk>)
      requires ReadChunkAt(kind, buf.data, buf.pos, formBufLocations, readData, recordFormPos, chunkId, codecs).Some?
      modifies this, buf
      ensures (c, buf.pos, formBufLocations)
              == ReadChunkAt(kind, buf.data, old(buf.pos), old(formBufLocations), readData, recordFormPos, chunkId, codecs).value
      ensures formChunk == old(formChunk) && id3v2Tag == old(id3v2Tag)
    {
      var formPos: Option<nat> := if recordFormPos then Some(0) else None;
      ghost var start := StartOf(formBufLocations, chunkId, buf.pos);
      ParseKindWithin(kind, buf.data, start, chunkId, readData, codecs);
      if chunkId in formBufLocations {
        buf.SeekStart(formBufLocations[chunkId]);
      }
      var id: ChunkId := chunkId;
      var r;
      formPos, r := ParseChunk(buf, kind, id, readData, formPos, codecs);
      if r.Failure? {
        assert false;
      }
      if formPos.Some? {
        formBufLocations := formBufLocations[chunkId := formPos.value];
      }
      c := r.value;
    }

    /** A decoded tag: its decoder run from the cursor, its chunk folded into the aggregate. */
    method ScanDecoded(form: FormChunk, kind: ChunkKind, id: ChunkId, readData: bool, recordFormPos: bool)
      requires DecodeBranch(buf.data, State(form), kind, id, readData, recordFormPos, codecs).Some?
      modifies this, buf, form
      ensures State(form) == DecodeBranch(buf.data, old(State(form)), kind, id, readData, recordFormPos, codecs).value
      ensures formChunk == old(formChunk)
    {
      var c := ReadChunk(kind, readData, recordFormPos, id);
      if c.Some? {
        Absorb(form, c.value);
      }
    }

    /** An "ID3" marker at `offset` of the window just read. */
    method ScanId3(form: FormChunk, id: ChunkId, offset: nat, readData: bool, recordFormPos: bool)
      requires 4 <= buf.pos <= |buf.data| && offset <= 1
      requires Id3Branch(buf.data, State(form).(pos := buf.pos - 4), buf.pos - 4 + offset, Id3KeyAsWritten(id, offset),
                         readData, recordFormPos, codecs).Some?
      modifies this, buf
      ensures State(form) == Id3Branch(buf.data, old(State(form)).(pos := old(buf.pos) - 4), old(buf.pos) - 4 + offset,
                                       Id3KeyAsWritten(id, offset), readData, recordFormPos, codecs).value
      ensures formChunk == old(formChunk)
    {
      // back to the marker: 4 bytes for offset 0, 3 for offset 1
      buf.Seek(offset - 4);
      var c := ReadChunk(Id3Kind, readData, recordFormPos, Id3KeyAsWritten(id, offset));
      if c.Some? && c.value.Id3Value? {
        id3v2Tag := Some(c.value.id3.tag);
      } else {
        // the embedded-tag decoder never yields nothing, so the recovery seek of 3 bytes is never reached
        assert false;
      }
    }

    /** One pass of the scan loop of `analyze_data`: read a tag and dispatch on it. */
    method ScanOne(form: FormChunk, readData: bool, recordFormPos: bool)
      requires buf.pos + 4 <= |buf.data|
      requires Step(buf.data, State(form), readData, recordFormPos, codecs).Some?
      modifies this, buf, form
      ensures State(form) == Step(buf.data, old(State(form)), readData, recordFormPos, codecs).value
      ensures formChunk == old(formChunk)
    {
      var id := ReadChunkId(buf);
      match Classify(id)
      case Unsupported =>
        // FVER and the Apple chunks are `unimplemented!`: excluded by the precondition
        assert false;
      case Skip =>
        // an ID3v1 "TAG" marker or an unknown tag: only logged
      case Decode(kind) =>
        ScanDecoded(form, kind, id, readData, recordFormPos);
      case Id3Marker(offset) =>
        ScanId3(form, id, offset, readData, recordFormPos);
    }

    /**
     * The same pass, seen from the run the loop follows: from a state `st`
     * whose run of `k` steps finishes with `result`, it reaches a state whose
     * shorter run finishes with the same `result`.
     */
    method ScanStep(form: FormChunk, readData: bool, recordFormPos: bool,
                    ghost step: ScanState -> Option<ScanState>, ghost st: ScanState, ghost k: nat, ghost result: Outcome)
      returns (ghost st': ScanState, ghost k': nat)
      requires Agrees(step, buf.data, readData, recordFormPos, codecs)
      requires buf.pos + 4 <= |buf.data| && State(form) == st
      requires Run(buf.data, st, step, k) == result && result.Finished?
      modifies this, buf, form
      ensures State(form) == st' && k' < k
      ensures Run(buf.data, st', step, k') == result
      ensures formChunk == old(formChunk)
    {
      RunStep(buf.data, st, step, k);
      ScanApplied(form, readData, recordFormPos, step);
      st' := step(st).value;
      k' := k - 1;
    }

    /** The same pass, stated through the step function value the run applies. */
    method ScanApplied(form: FormChunk, readData: bool, recordFormPos: bool, ghost step: ScanState -> Option<ScanState>)
      requires Agrees(step, buf.data, readData, recordFormPos, codecs)
      requires buf.pos + 4 <= |buf.data| && step(State(form)).Some?
      modifies this, buf, form
      ensures Some(State(form)) == step(old(State(form)))
      ensures formChunk == old(formChunk)
    {
      ScanOne(form, readData, recordFormPos);
    }

    /** Rewind, read the first tag and decode FORM there, always in decode mode. */
    method ScanStart(recordFormPos: bool) returns (form: FormChunk)
      requires Begin(buf.data, formBufLocations, id3v2Tag, recordFormPos, codecs).Some?
      modifies this, buf
      ensures fresh(form)
      ensures State(form) == Begin(buf.data, old(formBufLocations), old(id3v2Tag), recordFormPos, codecs).value
      ensures formChunk == old(formChunk)
    {
      buf.Rewind();
      var formId := ReadChunkId(buf);
      var f := ReadChunk(FormKind, true, recordFormPos, formId);
      if f.None? || !f.value.FormValue? {
        // decode mode never yields nothing, and an error panics in ReadChunk
        assert false;
      }
      form := new FormChunk(f.value.form);
    }

    /** The loop `while available() >= 4`, proved to end where a finishing run of `step` ends. */
    method ScanLoop(form: FormChunk, readData: bool, recordFormPos: bool, ghost step: ScanState -> Option<ScanState>,
                    ghost fuel: nat)
      requires Agrees(step, buf.data, readData, recordFormPos, codecs)
      requires Run(buf.data, State(form), step, fuel).Finished?
      modifies this, buf, form
      ensures State(form) == old(Run(buf.data, State(form), step, fuel)).state
      ensures formChunk == old(formChunk)
    {
      ghost var result := Run(buf.data, State(form), step, fuel);
      ghost var st := State(form);
      ghost var k := fuel;
      while buf.Available() >= 4
        invariant State(form) == st
        invariant Run(buf.data, st, step, k) == result
        invariant formChunk == old(formChunk)
        decreases k
      {
        st, k := ScanStep(form, readData, recordFormPos, step, st, k, result);
      }
    }

    /**
     * `analyze_data`: rewind, decode FORM, then dispatch on one tag after
     * another while at least four bytes remain, and keep the aggregate.
     */
    method AnalyzeData(readData: bool, recordFormPos: bool)
      requires Completes(buf.data, formBufLocations, id3v2Tag, readData, recordFormPos, codecs)
      modifies this, buf
      ensures
        var st := ScanResult(buf.data, old(formBufLocations), old(id3v2Tag), readData, recordFormPos, codecs);
        formChunk == Some(st.form) && id3v2Tag == st.id3 && formBufLocations == st.cache && buf.pos == st.pos
    {
      ghost var start := Begin(buf.data, formBufLocations, id3v2Tag, recordFormPos, codecs).value;
      ghost var fuel: nat :| Run(buf.data, start, StepOf(buf.data, readData, recordFormPos, codecs), fuel).Finished?;
      var form := ScanStart(recordFormPos);
      StepOfAgrees(buf.data, readData, recordFormPos, codecs);
      ScanLoop(form, readData, recordFormPos, StepOf(buf.data, readData, recordFormPos, codecs), fuel);
      formChunk := Some(form.Value());
    }

    /** `read_all_form_data`: a scan that decodes every chunk and records nothing. */
    method ReadAllFormData()
      requires Completes(buf.data, formBufLocations, id3v2Tag, true, false, codecs)
      modifies this, buf
      ensures
        var st := ScanResult(buf.data, old(formBufLocations), old(id3v2Tag), true, false, codecs);
        formChunk == Some(st.form) && id3v2Tag == st.id3 && formBufLocations == st.cache && buf.pos == st.pos
    {
      AnalyzeData(true, false);
    }

    /** `parse_form_location`: a scan that skips payloads and records every tag's offset. */
    method ParseFormLocation()
      requires Completes(buf.data, formBufLocations, id3v2Tag, false, true, codecs)
      modifies this, buf
      ensures
        var st := ScanResult(buf.data, old(formBufLocations), old(id3v2Tag), false, true, codecs);
        formChunk == Some(st.form) && id3v2Tag == st.id3 && formBufLocations == st.cache && buf.pos == st.pos
    {
      AnalyzeData(false, true);
    }

    /**
     * `samples`: frames × channels sample points, point `i` read by the
     * sample decoder at offset `i` × bytes-per-point of the sound data.
     */
    method Samples<S>(parsePoint: (seq<Byte>, nat, Int16) -> S) returns (samples: seq<S>)
      requires formChunk.Some? && formChunk.value.sound.Some? && formChunk.value.common.Some?
      requires formChunk.value.common.value.numChannels >= 0 && formChunk.value.common.value.bitRate >= 0
      requires formChunk.value.common.value.numSampleFrames * formChunk.value.common.value.numChannels < 0x1_0000_0000
      ensures
        var c := formChunk.value.common.value;
        var s := formChunk.value.sound.value;
        && |samples| == c.numSampleFrames * c.numChannels
        && forall i :: 0 <= i < |samples| ==>
             samples[i] == parsePoint(s.soundData, i * BytesPerPoint(c.bitRate), c.bitRate)
    {
      var f := formChunk.value;
      var s := f.sound.value;
      var c := f.common.value;
      var samplePoints: nat := c.numSampleFrames * c.numChannels;
      samples := [];
      var bytesPerPoint: nat := c.bitRate / 8;
      if c.bitRate % 8 != 0 {
        bytesPerPoint := bytesPerPoint + 1;
      }
      for point := 0 to samplePoints
        invariant |samples| == point
        invariant forall i :: 0 <= i < point ==> samples[i] == parsePoint(s.soundData, i * bytesPerPoint, c.bitRate)
      {
        samples := samples + [parsePoint(s.soundData, point * bytesPerPoint, c.bitRate)];
      }
    }
  }
}
