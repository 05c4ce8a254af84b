/**
 * `read_chunk` and the scan of `analyze_data`, stated as functions of the
 * bytes: the tag → offset cache, the dispatch on four-byte tags, one step of
 * the scan loop and the whole scan, run on a fuel bound because the loop
 * need not end. `None` and `Panicked` stand for a panic of the source.
 */
module Scan {
  import opened Wrappers
  import opened Bytes
  import opened Ids
  import opened ChunkTypes
  import opened Form
  import opened ChunkSpec
  import opened ChunkProps

  /** The tag → offset cache: the tag bytes and the position recorded for them. */
  type Cache = map<seq<Byte>, nat>

  // ---------------------------------------------------------------------
  // read_chunk

  /** Where `read_chunk` starts the decoder: the cached offset of the tag, if any. */
  function StartOf(cache: Cache, key: seq<Byte>, pos: nat): nat
  {
    if key in cache then cache[key] else pos
  }

  /**
   * `read_chunk`: seek to the cached offset of `key` when there is one,
   * turn `key` into a four-byte id (a panic when it has another length),
   * run the decoder of `kind`, unwrap its result (an error is a panic) and,
   * when recording, cache the position the decoder started from. The value,
   * the position after it and the new cache.
   */
  function ReadChunkAt(kind: ChunkKind, data: seq<Byte>, pos: nat, cache: Cache, readData: bool, record: bool,
                       key: seq<Byte>, codecs: Codecs)
    : (o: Option<(Option<AnyChunk>, nat, Cache)>)
    ensures o.Some? ==> |key| == 4 && o.value.1 <= |data|
  {
    var start := StartOf(cache, key, pos);
    if |key| != 4 then None
    else
      match ParseKind(kind, data, start, key, readData, codecs)
      case None => None
      case Some(Parsed(Failure(_), _)) => None
      case Some(Parsed(Success(c), next)) =>
        ParseKindWithin(kind, data, start, key, readData, codecs);
        Some((c, next, if record then cache[key := start] else cache))
  }

  /**
   * Once a tag is recorded, reading it again from anywhere decodes the same
   * chunk again and ends where the first read ended: the cached offset wins
   * over the cursor.
   */
  lemma CachedReread(kind: ChunkKind, data: seq<Byte>, pos: nat, pos': nat, cache: Cache, readData: bool,
                     key: seq<Byte>, codecs: Codecs)
    requires ReadChunkAt(kind, data, pos, cache, readData, true, key, codecs).Some?
    ensures
      var (c, next, cache') := ReadChunkAt(kind, data, pos, cache, readData, true, key, codecs).value;
      ReadChunkAt(kind, data, pos', cache', readData, true, key, codecs) == Some((c, next, cache'))
  {
    var start := StartOf(cache, key, pos);
    var (c, next, cache') := ReadChunkAt(kind, data, pos, cache, readData, true, key, codecs).value;
    assert cache' == cache[key := start];
    assert StartOf(cache', key, pos') == start;
    assert cache'[key := start] == cache';
  }

  /** Without recording the cache is left as it was; with it, only `key` changes. */
  lemma ReadChunkCache(kind: ChunkKind, data: seq<Byte>, pos: nat, cache: Cache, readData: bool, record: bool,
                       key: seq<Byte>, codecs: Codecs)
    requires ReadChunkAt(kind, data, pos, cache, readData, record, key, codecs).Some?
    ensures !record ==> ReadChunkAt(kind, data, pos, cache, readData, record, key, codecs).value.2 == cache
    ensures record ==>
      var cache' := ReadChunkAt(kind, data, pos, cache, readData, record, key, codecs).value.2;
      && key in cache'
      && (key in cache ==> cache'[key] == cache[key])
      && (key !in cache ==> cache'[key] == pos)
      && forall k :: k in cache && k != key ==> k in cache' && cache'[k] == cache[k]
    ensures record ==> ReadChunkAt(kind, data, pos, cache, readData, record, key, codecs).value.2.Keys == cache.Keys + {key}
  {
  }

  // ---------------------------------------------------------------------
  // Dispatch on the four-byte window

  /** The decoder `analyze_data` runs for a tag, for the tags it decodes. */
  function DecoderFor(id: ChunkId): Option<ChunkKind>
  {
    if id == COMMON then Some(CommonKind)
    else if id == SOUND then Some(SoundKind)
    else if id == MARKER then Some(MarkerKind)
    else if id == INSTRUMENT then Some(InstrumentKind)
    else if id == MIDI then Some(MidiKind)
    else if id == RECORDING then Some(RecordingKind)
    else if id == APPLICATION then Some(ApplicationKind)
    else if id == COMMENTS then Some(CommentsKind)
    else if id == NAME || id == AUTHOR || id == COPYRIGHT || id == ANNOTATION then Some(TextKind)
    else None
  }

  /**
   * The scan hands a tag to a decoder exactly when that decoder accepts it,
   * so the decoders it runs from the table never fail on the tag.
   */
  lemma DecoderForAccepts(id: ChunkId, kind: ChunkKind)
    requires kind != FormKind && kind != Id3Kind
    ensures DecoderFor(id) == Some(kind) <==> Accepts(kind, id)
  {
  }

  datatype Action =
    | Decode(kind: ChunkKind)   // a chunk the form aggregate takes
    | Id3Marker(offset: nat)    // "ID3" at this offset of the window
    | Skip                      // an ID3v1 "TAG" marker or an unknown tag: only the window is consumed
    | Unsupported               // FVER and the Apple chunks: `unimplemented!`

  /** The arms of the match in `analyze_data`, in their order. */
  function Classify(id: ChunkId): Action
  {
    if DecoderFor(id).Some? then Decode(DecoderFor(id).value)
    else if id == FVER then Unsupported
    else if id[0..3] == ID3 then Id3Marker(0)
    else if id[1..4] == ID3 then Id3Marker(1)
    else if id[0..3] == TAG || id[1..4] == TAG then Skip
    else if id == CHAN || id == BASC || id == TRNS || id == CATE then Unsupported
    else Skip
  }

  /** What a decoded chunk does to the aggregate: singletons are set, lists appended to. */
  function Fold(form: FormData, c: AnyChunk): FormData
  {
    match c
    case CommonValue(x) => form.SetCommon(x)
    case SoundValue(x) => form.SetSound(x)
    case MarkerValue(x) => form.AddMarker(x)
    case InstrumentValue(x) => form.SetInstrument(x)
    case MidiValue(x) => form.AddMidi(x)
    case RecordingValue(x) => form.SetRecording(x)
    case ApplicationValue(x) => form.AddApp(x)
    case CommentsValue(x) => form.SetComments(x)
    case TextValue(x) => form.AddText(x)
    case FormValue(_) => form
    case Id3Value(_) => form
  }

  // ---------------------------------------------------------------------
  // One step of the scan loop

  /** The state the scan loop carries: cursor, aggregate, embedded tag and cache. */
  datatype ScanState = ScanState(pos: nat, form: FormData, id3: Option<Id3Tag>, cache: Cache)

  /** The four bytes at the cursor, read as the next tag. */
  function Window(data: seq<Byte>, st: ScanState): ChunkId
    requires st.pos + 4 <= |data|
  {
    data[st.pos..st.pos + 4]
  }

  /**
   * The key the "ID3" arms pass to `read_chunk`, as written: the window for
   * a marker at offset 0, but the three bytes "ID3" for a marker at offset 1.
   */
  function Id3KeyAsWritten(id: ChunkId, offset: nat): seq<Byte>
  {
    if offset == 0 then id else ID3
  }

  /**
   * The key the "ID3" arms are meant to pass: the window itself, which the
   * embedded-tag decoder accepts at either offset. The scan does not use it;
   * it keeps the key as written.
   */
  function Id3Key(id: ChunkId, offset: nat): (key: ChunkId)
    ensures (id[0..3] == ID3 || id[1..4] == ID3) ==> Accepts(Id3Kind, key)
  {
    id
  }

  /**
   * An "ID3" arm: the cursor goes back to the marker at `start`, the tag is
   * decoded there and kept apart from the aggregate; when the decoder
   * yields nothing the cursor moves 3 bytes on.
   */
  function Id3Branch(data: seq<Byte>, st: ScanState, start: nat, key: seq<Byte>, readData: bool, record: bool,
                     codecs: Codecs)
    : (o: Option<ScanState>)
    ensures o.Some? ==> o.value.pos <= |data| && o.value.form == st.form
  {
    match ReadChunkAt(Id3Kind, data, start, st.cache, readData, record, key, codecs)
    case None => None
    case Some((Some(Id3Value(t)), next, cache)) => Some(st.(pos := next, id3 := Some(t.tag), cache := cache))
    case Some((_, next, cache)) =>
      if next + 3 <= |data| then Some(st.(pos := next + 3, cache := cache)) else None
  }

  /**
   * A decoded tag: the decoder of `kind` runs from `st.pos`, just past the
   * window (or from the cached offset of the tag), and what it yields is
   * folded into the aggregate.
   */
  function DecodeBranch(data: seq<Byte>, st: ScanState, kind: ChunkKind, id: ChunkId, readData: bool, record: bool,
                        codecs: Codecs)
    : (o: Option<ScanState>)
    ensures o.Some? ==> o.value.pos <= |data| && o.value.id3 == st.id3
  {
    match ReadChunkAt(kind, data, st.pos, st.cache, readData, record, id, codecs)
    case None => None
    case Some((c, next, cache)) =>
      Some(ScanState(next, if c.Some? then Fold(st.form, c.value) else st.form, st.id3, cache))
  }

  /** One iteration of the scan loop, from the cursor at the next tag. */
  function Step(data: seq<Byte>, st: ScanState, readData: bool, record: bool, codecs: Codecs): (o: Option<ScanState>)
    requires st.pos + 4 <= |data|
    ensures o.Some? ==> o.value.pos <= |data|
  {
    var id := Window(data, st);
    match Classify(id)
    case Unsupported => None
    case Skip => Some(st.(pos := st.pos + 4))
    case Decode(kind) => DecodeBranch(data, st.(pos := st.pos + 4), kind, id, readData, record, codecs)
    case Id3Marker(offset) => Id3Branch(data, st, st.pos + offset, Id3KeyAsWritten(id, offset), readData, record, codecs)
  }

  // ---------------------------------------------------------------------
  // The whole scan

  datatype Outcome = Finished(state: ScanState) | Panicked | OutOfFuel

  /** One iteration of the loop as a function value; it panics when fewer than four bytes are left. */
  function StepOf(data: seq<Byte>, readData: bool, record: bool, codecs: Codecs): ScanState -> Option<ScanState>
  {
    (st: ScanState) => if st.pos + 4 <= |data| then Step(data, st, readData, record, codecs) else None
  }

  /** `step` never moves the cursor past the end of the bytes. */
  ghost predicate StepWithin(data: seq<Byte>, step: ScanState -> Option<ScanState>)
  {
    forall st {:trigger step(st)} :: step(st).Some? ==> step(st).value.pos <= |data|
  }

  lemma StepOfWithin(data: seq<Byte>, readData: bool, record: bool, codecs: Codecs)
    ensures StepWithin(data, StepOf(data, readData, record, codecs))
  {
  }

  /**
   * The scan loop, `while available() >= 4`, run for at most `fuel`
   * iterations of `step`.
   */
  function Run(data: seq<Byte>, st: ScanState, step: ScanState -> Option<ScanState>, fuel: nat): (o: Outcome)
    ensures o.Finished? ==> |data| < o.state.pos + 4
    decreases fuel
  {
    if st.pos + 4 > |data| then Finished(st)
    else if fuel == 0 then OutOfFuel
    else
      match step(st)
      case None => Panicked
      case Some(st') => Run(data, st', step, fuel - 1)
  }

  /** A run that finishes from a state with a tag left takes one step and finishes from there. */
  lemma RunStep(data: seq<Byte>, st: ScanState, step: ScanState -> Option<ScanState>, fuel: nat)
    requires st.pos + 4 <= |data| && Run(data, st, step, fuel).Finished?
    ensures fuel > 0 && step(st).Some?
    ensures Run(data, step(st).value, step, fuel - 1) == Run(data, st, step, fuel)
  {
  }

  /**
   * `step` takes the same step as `Step` from every state with a tag left.
   * The equation is only drawn where a `Step` term is already present.
   */
  ghost predicate Agrees(step: ScanState -> Option<ScanState>, data: seq<Byte>, readData: bool, record: bool, codecs: Codecs)
  {
    forall st: ScanState {:trigger Step(data, st, readData, record, codecs)} ::
      st.pos + 4 <= |data| ==> step(st) == Step(data, st, readData, record, codecs)
  }

  lemma StepOfAgrees(data: seq<Byte>, readData: bool, record: bool, codecs: Codecs)
    ensures Agrees(StepOf(data, readData, record, codecs), data, readData, record, codecs)
  {
  }

  /** A run of a step that stays within the bytes ends within them. */
  lemma {:induction false} RunWithin(data: seq<Byte>, st: ScanState, step: ScanState -> Option<ScanState>, fuel: nat)
    requires st.pos <= |data| && StepWithin(data, step)
    ensures Run(data, st, step, fuel).Finished? ==> Run(data, st, step, fuel).state.pos <= |data|
    decreases fuel
  {
    if st.pos + 4 <= |data| && fuel > 0 && step(st).Some? {
      RunWithin(data, step(st).value, step, fuel - 1);
    }
  }

  /** More fuel than a finished run needed changes nothing. */
  lemma {:induction false} RunMoreFuel(data: seq<Byte>, st: ScanState, step: ScanState -> Option<ScanState>,
                                       fuel: nat, more: nat)
    requires fuel <= more && Run(data, st, step, fuel).Finished?
    ensures Run(data, st, step, more) == Run(data, st, step, fuel)
    decreases fuel
  {
    if st.pos + 4 <= |data| {
      RunMoreFuel(data, step(st).value, step, fuel - 1, more - 1);
    }
  }

  /** A scan that finishes finishes in the same state whatever fuel it is given. */
  lemma FuelIrrelevant(data: seq<Byte>, st: ScanState, step: ScanState -> Option<ScanState>, fuel: nat, fuel': nat)
    requires Run(data, st, step, fuel).Finished? && Run(data, st, step, fuel').Finished?
    ensures Run(data, st, step, fuel) == Run(data, st, step, fuel')
  {
    if fuel <= fuel' {
      RunMoreFuel(data, st, step, fuel, fuel');
    } else {
      RunMoreFuel(data, st, step, fuel', fuel);
    }
  }

  /**
   * Before the loop: rewind, read the first tag and decode FORM there. The
   * FORM decoder in decode mode never returns nothing (FormDecodeNeverEmpty),
   * so every failure here is a panic of `read_chunk`.
   */
  function Begin(data: seq<Byte>, cache: Cache, id3: Option<Id3Tag>, record: bool, codecs: Codecs): (o: Option<ScanState>)
    ensures o.Some? ==> o.value.pos <= |data| && o.value.id3 == id3
  {
    if |data| < 4 then None
    else
      match ReadChunkAt(FormKind, data, 4, cache, true, record, data[0..4], codecs)
      case Some((Some(FormValue(f)), next, cache')) =>
        Some(ScanState(next, f, id3, cache'))
      case _ => None
  }

  /** The scan starts and reaches fewer than four remaining bytes without a panic. */
  ghost predicate Completes(data: seq<Byte>, cache: Cache, id3: Option<Id3Tag>, readData: bool, record: bool,
                            codecs: Codecs)
  {
    && Begin(data, cache, id3, record, codecs).Some?
    && exists fuel: nat ::
         Run(data, Begin(data, cache, id3, record, codecs).value, StepOf(data, readData, record, codecs), fuel).Finished?
  }

  lemma FuelIrrelevantAll(data: seq<Byte>, st: ScanState, step: ScanState -> Option<ScanState>, fuel: nat)
    requires Run(data, st, step, fuel).Finished?
    ensures forall fuel': nat :: Run(data, st, step, fuel').Finished? ==> Run(data, st, step, fuel') == Run(data, st, step, fuel)
  {
    forall fuel': nat | Run(data, st, step, fuel').Finished?
      ensures Run(data, st, step, fuel') == Run(data, st, step, fuel)
    {
      FuelIrrelevant(data, st, step, fuel, fuel');
    }
  }

  /** The state a completed scan ends in: the one every finishing run reaches. */
  ghost function ScanResult(data: seq<Byte>, cache: Cache, id3: Option<Id3Tag>, readData: bool, record: bool,
                            codecs: Codecs): (st: ScanState)
    requires Completes(data, cache, id3, readData, record, codecs)
    ensures st.pos <= |data| < st.pos + 4
    ensures forall fuel: nat ::
      var o := Run(data, Begin(data, cache, id3, record, codecs).value, StepOf(data, readData, record, codecs), fuel);
      o.Finished? ==> o.state == st
  {
    var start := Begin(data, cache, id3, record, codecs).value;
    var step := StepOf(data, readData, record, codecs);
    var fuel: nat :| Run(data, start, step, fuel).Finished?;
    StepOfWithin(data, readData, record, codecs);
    RunWithin(data, start, step, fuel);
    FuelIrrelevantAll(data, start, step, fuel);
    Run(data, start, step, fuel).state
  }

  // ---------------------------------------------------------------------
  // Properties of the dispatch

  /**
   * A decoded chunk changes one field of the aggregate: a singleton is
   * overwritten, a list gets the chunk at its end (created when absent).
   */
  lemma FoldUpdatesOneField(form: FormData, c: AnyChunk)
    ensures c.CommonValue? ==> Fold(form, c) == form.(common := Some(c.common))
    ensures c.SoundValue? ==> Fold(form, c) == form.(sound := Some(c.sound))
    ensures c.InstrumentValue? ==> Fold(form, c) == form.(instrument := Some(c.instrument))
    ensures c.RecordingValue? ==> Fold(form, c) == form.(recording := Some(c.recording))
    ensures c.CommentsValue? ==> Fold(form, c) == form.(comments := Some(c.comments))
    ensures c.MarkerValue? ==> Fold(form, c) == form.(markers := Some(ListOf(form.markers) + [c.marker]))
    ensures c.MidiValue? ==> Fold(form, c) == form.(midi := Some(ListOf(form.midi) + [c.midi]))
    ensures c.ApplicationValue? ==> Fold(form, c) == form.(apps := Some(ListOf(form.apps) + [c.app]))
    ensures c.TextValue? ==> Fold(form, c) == form.(texts := Some(ListOf(form.texts) + [c.text]))
    ensures c.FormValue? || c.Id3Value? ==> Fold(form, c) == form
  {
  }

  /**
   * A tag that is neither decoded, nor unsupported, nor an "ID3" marker
   * (an ID3v1 "TAG" marker or any unknown tag) consumes only its four bytes;
   * its size field is not used to skip a payload.
   */
  lemma UnknownTagSkipped(data: seq<Byte>, st: ScanState, readData: bool, record: bool, codecs: Codecs)
    requires st.pos + 4 <= |data|
    requires DecoderFor(Window(data, st)).None?
    requires Window(data, st) !in {FVER, CHAN, BASC, TRNS, CATE}
    requires Window(data, st)[0..3] != ID3 && Window(data, st)[1..4] != ID3
    ensures Step(data, st, readData, record, codecs) == Some(st.(pos := st.pos + 4))
  {
  }

  /**
   * A window that is a decoded tag runs that tag's decoder just past the
   * window (or at its cached offset) and folds in what it yields; the
   * embedded tag is left alone.
   */
  lemma DecodedTagFolded(data: seq<Byte>, st: ScanState, readData: bool, record: bool, codecs: Codecs)
    requires st.pos + 4 <= |data| && DecoderFor(Window(data, st)).Some?
    requires Step(data, st, readData, record, codecs).Some?
    ensures
      var kind := DecoderFor(Window(data, st)).value;
      var r := ReadChunkAt(kind, data, st.pos + 4, st.cache, readData, record, Window(data, st), codecs);
      && r.Some?
      && var st' := Step(data, st, readData, record, codecs).value;
      && st'.pos == r.value.1 && st'.cache == r.value.2 && st'.id3 == st.id3
      && (r.value.0.None? ==> st'.form == st.form)
      && (r.value.0.Some? ==> KindOf(r.value.0.value) == kind && st'.form == Fold(st.form, r.value.0.value))
  {
    var kind := DecoderFor(Window(data, st)).value;
    var r := ReadChunkAt(kind, data, st.pos + 4, st.cache, readData, record, Window(data, st), codecs);
    if r.value.0.Some? {
      var start := StartOf(st.cache, Window(data, st), st.pos + 4);
      ParseKindKind(kind, data, start, Window(data, st), readData, codecs, r.value.0.value);
    }
  }

  /**
   * An "ID3" marker at the start of the window: the embedded-tag decoder
   * runs from the marker, the tag is kept apart from the aggregate, the
   * cursor moves just past the tag and, when recording, the marker position
   * is cached.
   */
  lemma Id3OffsetZeroDecoded(data: seq<Byte>, st: ScanState, readData: bool, record: bool, codecs: Codecs)
    requires st.pos + 5 <= |data| && Classify(Window(data, st)) == Id3Marker(0)
    requires Window(data, st) !in st.cache
    requires data[st.pos + 3] <= 4 && data[st.pos + 4] == 0
    requires codecs.readTag(data, st.pos).TagOk?
    requires st.pos + codecs.readTag(data, st.pos).length <= |data|
    ensures
      var t := codecs.readTag(data, st.pos);
      Step(data, st, readData, record, codecs)
        == Some(st.(pos := st.pos + t.length, id3 := Some(t.tag),
                    cache := if record then st.cache[Window(data, st) := st.pos] else st.cache))
  {
    var p := st.pos;
    assert data[p + 3..p + 5] == [data[st.pos + 3], data[st.pos + 4]];
    assert IsId3Marker(Window(data, st));
  }

  // ---------------------------------------------------------------------
  // The "ID3" marker at offset 1 of the window

  /**
   * As written, the arm for an "ID3" marker at offset 1 always panics: the
   * three-byte key cannot be turned into a four-byte id, whatever follows.
   * A scan that meets such a window therefore never completes.
   */
  lemma Id3OffsetOneAsWrittenPanics(data: seq<Byte>, st: ScanState, readData: bool, record: bool, codecs: Codecs)
    requires st.pos + 4 <= |data| && Classify(Window(data, st)) == Id3Marker(1)
    ensures Step(data, st, readData, record, codecs) == None
  {
  }

  /**
   * With the window as the key, a well-formed embedded tag at offset 1 is
   * decoded from the marker on: the tag is kept, the cursor moves past it
   * and the marker position is cached when recording.
   */
  lemma Id3OffsetOneDecoded(data: seq<Byte>, st: ScanState, readData: bool, record: bool, codecs: Codecs)
    requires st.pos + 6 <= |data| && Classify(Window(data, st)) == Id3Marker(1)
    requires Window(data, st) !in st.cache
    requires data[st.pos + 4] <= 4 && data[st.pos + 5] == 0
    requires codecs.readTag(data, st.pos + 1).TagOk?
    requires st.pos + 1 + codecs.readTag(data, st.pos + 1).length <= |data|
    ensures
      var t := codecs.readTag(data, st.pos + 1);
      Id3Branch(data, st, st.pos + 1, Id3Key(Window(data, st), 1), readData, record, codecs)
        == Some(st.(pos := st.pos + 1 + t.length, id3 := Some(t.tag),
                    cache := if record then st.cache[Window(data, st) := st.pos + 1] else st.cache))
  {
    var id := Window(data, st);
    var p := st.pos + 1;
    assert data[p + 3..p + 5] == [data[st.pos + 4], data[st.pos + 5]];
    assert IsId3Marker(id);
  }

  // ---------------------------------------------------------------------
  // A recorded tag that occurs again

  /**
   * As written, a decoded tag whose key is already cached is decoded again
   * from the cached offset, not from the cursor: the cursor ends where that
   * earlier decode ends and the cache is unchanged.
   */
  lemma CachedTagSeeksBack(data: seq<Byte>, st: ScanState, readData: bool, codecs: Codecs)
    requires st.pos + 4 <= |data| && DecoderFor(Window(data, st)).Some?
    requires Window(data, st) in st.cache
    requires Step(data, st, readData, true, codecs).Some?
    ensures
      var id := Window(data, st);
      var p := ParseKind(DecoderFor(id).value, data, st.cache[id], id, readData, codecs);
      && p.Some?
      && Step(data, st, readData, true, codecs).value.pos == p.value.next
      && Step(data, st, readData, true, codecs).value.cache == st.cache
  {
    var id := Window(data, st);
    assert st.cache[id := st.cache[id]] == st.cache;
  }

  /** A state the step maps to itself, with a tag left, is never left: the loop runs forever. */
  lemma {:induction false} RunFixedPoint(data: seq<Byte>, st: ScanState, step: ScanState -> Option<ScanState>, fuel: nat)
    requires st.pos + 4 <= |data| && step(st) == Some(st)
    ensures Run(data, st, step, fuel) == OutOfFuel
    decreases fuel
  {
    if fuel > 0 {
      RunFixedPoint(data, st, step, fuel - 1);
    }
  }

  /** An AIFF form holding two empty MIDI chunks: "FORM", size 20, "AIFF", then "MIDI" and size 0 twice. */
  function RepeatedMidi(): (data: seq<Byte>)
    ensures |data| == 28
  {
    FORM + [0, 0, 0, 20] + AIFF + MIDI + [0, 0, 0, 0] + MIDI + [0, 0, 0, 0]
  }

  lemma RepeatedMidiBytes()
    ensures var data := RepeatedMidi();
      && data[0..4] == FORM && data[8..12] == AIFF && data[12..16] == MIDI && data[20..24] == MIDI
      && I32At(data, 16) == 0 && I32At(data, 24) == 0
  {
    var data := RepeatedMidi();
    assert data[0..4] == FORM && data[8..12] == AIFF && data[12..16] == MIDI && data[20..24] == MIDI;
    assert data[16..20] == [0, 0, 0, 0] && data[24..28] == [0, 0, 0, 0];
  }

  /** The FORM header of RepeatedMidi decodes to the empty aggregate and is recorded at 4. */
  lemma RepeatedMidiBegin(id3: Option<Id3Tag>, codecs: Codecs)
    ensures Begin(RepeatedMidi(), map[], id3, true, codecs) == Some(ScanState(12, EmptyForm, id3, map[FORM := 4]))
  {
    RepeatedMidiBytes();
  }

  /** A skip-mode, recording read of an empty MIDI chunk of RepeatedMidi that starts at 16 or 24. */
  lemma RepeatedMidiRead(pos: nat, cache: Cache, codecs: Codecs)
    requires StartOf(cache, MIDI, pos) == 16 || StartOf(cache, MIDI, pos) == 24
    ensures
      var start := StartOf(cache, MIDI, pos);
      ReadChunkAt(MidiKind, RepeatedMidi(), pos, cache, false, true, MIDI, codecs)
        == Some((None, start + 4, cache[MIDI := start]))
  {
    RepeatedMidiBytes();
  }

  /** From the first MIDI tag, and (as written) from the second one, the scan reaches the second tag. */
  lemma RepeatedMidiSteps(id3: Option<Id3Tag>, codecs: Codecs)
    ensures
      var s1 := ScanState(20, EmptyForm, id3, map[FORM := 4, MIDI := 16]);
      && Step(RepeatedMidi(), ScanState(12, EmptyForm, id3, map[FORM := 4]), false, true, codecs) == Some(s1)
      && Step(RepeatedMidi(), s1, false, true, codecs) == Some(s1)
  {
    RepeatedMidiBytes();
    var cache1: Cache := map[FORM := 4, MIDI := 16];
    RepeatedMidiRead(16, map[FORM := 4], codecs);
    RepeatedMidiRead(24, cache1, codecs);
    assert cache1[MIDI := 16] == cache1;
  }

  /**
   * As written, `parse_form_location` never returns on RepeatedMidi: the
   * second MIDI tag seeks back to the first one's payload, which ends at the
   * second tag again.
   */
  lemma RepeatedMidiNeverCompletes(id3: Option<Id3Tag>, codecs: Codecs)
    ensures !Completes(RepeatedMidi(), map[], id3, false, true, codecs)
  {
    var data := RepeatedMidi();
    var s0 := ScanState(12, EmptyForm, id3, map[FORM := 4]);
    var s1 := ScanState(20, EmptyForm, id3, map[FORM := 4, MIDI := 16]);
    RepeatedMidiBegin(id3, codecs);
    RepeatedMidiSteps(id3, codecs);
    var step := StepOf(data, false, true, codecs);
    assert step(s0) == Some(s1) && step(s1) == Some(s1);
    forall fuel: nat
      ensures !Run(data, s0, step, fuel).Finished?
    {
      if fuel > 0 {
        RunFixedPoint(data, s1, step, fuel - 1);
      }
    }
  }

  /**
   * The step as evidently intended: a decoded tag is read from the cursor,
   * not from its cached offset, and the cache keeps the offset recorded
   * first.
   */
  function StepAtCursor(data: seq<Byte>, st: ScanState, readData: bool, record: bool, codecs: Codecs)
    : (o: Option<ScanState>)
    requires st.pos + 4 <= |data|
  {
    var id := Window(data, st);
    match Step(data, st.(cache := st.cache - {id}), readData, record, codecs)
    case None => None
    case Some(st') => Some(st'.(cache := if id in st.cache then st.cache else st'.cache))
  }

  function StepAtCursorOf(data: seq<Byte>, readData: bool, record: bool, codecs: Codecs): ScanState -> Option<ScanState>
  {
    (st: ScanState) => if st.pos + 4 <= |data| then StepAtCursor(data, st, readData, record, codecs) else None
  }

  /**
   * The intended step never moves the cursor back, and a decoded or skipped
   * tag moves it past the window; every recorded offset is kept.
   */
  lemma StepAtCursorAdvances(data: seq<Byte>, st: ScanState, readData: bool, record: bool, codecs: Codecs)
    requires st.pos + 4 <= |data| && StepAtCursor(data, st, readData, record, codecs).Some?
    ensures
      var st' := StepAtCursor(data, st, readData, record, codecs).value;
      && st.pos <= st'.pos
      && (Classify(Window(data, st)).Decode? || Classify(Window(data, st)).Skip? ==> st.pos + 4 <= st'.pos)
      && forall k :: k in st.cache ==> k in st'.cache && st'.cache[k] == st.cache[k]
  {
    var id := Window(data, st);
    var st0 := st.(cache := st.cache - {id});
    match Classify(id)
    case Decode(kind) =>
      var r := ReadChunkAt(kind, data, st.pos + 4, st0.cache, readData, record, id, codecs);
      ParseKindWithin(kind, data, st.pos + 4, id, readData, codecs);
      ReadChunkCache(kind, data, st.pos + 4, st0.cache, readData, record, id, codecs);
    case Id3Marker(offset) =>
      var key := Id3KeyAsWritten(id, offset);
      ReadChunkCache(Id3Kind, data, st.pos + offset, st0.cache, readData, record, key, codecs);
      ParseKindWithin(Id3Kind, data, st.pos + offset, key, readData, codecs);
    case Skip =>
    case Unsupported =>
  }

  /** The intended step from each MIDI tag of RepeatedMidi decodes that tag from the cursor. */
  lemma RepeatedMidiStepsAtCursor(id3: Option<Id3Tag>, codecs: Codecs)
    ensures
      var cache1: Cache := map[FORM := 4, MIDI := 16];
      && StepAtCursor(RepeatedMidi(), ScanState(12, EmptyForm, id3, map[FORM := 4]), false, true, codecs)
           == Some(ScanState(20, EmptyForm, id3, cache1))
      && StepAtCursor(RepeatedMidi(), ScanState(20, EmptyForm, id3, cache1), false, true, codecs)
           == Some(ScanState(28, EmptyForm, id3, cache1))
  {
    RepeatedMidiBytes();
    var cache0: Cache := map[FORM := 4];
    var cache1: Cache := map[FORM := 4, MIDI := 16];
    assert cache0 - {MIDI} == cache0;
    assert cache1 - {MIDI} == cache0;
    RepeatedMidiRead(16, cache0, codecs);
    RepeatedMidiRead(24, cache0, codecs);
  }

  /** With the intended step, `parse_form_location` returns on RepeatedMidi, past both chunks. */
  lemma RepeatedMidiCompletesAtCursor(id3: Option<Id3Tag>, codecs: Codecs)
    ensures
      var data := RepeatedMidi();
      Run(data, Begin(data, map[], id3, true, codecs).value, StepAtCursorOf(data, false, true, codecs), 2)
        == Finished(ScanState(28, EmptyForm, id3, map[FORM := 4, MIDI := 16]))
  {
    RepeatedMidiBegin(id3, codecs);
    RepeatedMidiStepsAtCursor(id3, codecs);
  }
}
