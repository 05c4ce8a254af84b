/**
 * The FORM aggregate. `FormData` is its value; `FormChunk` is the object
 * whose setters and adders update it in place while a scan runs. Singleton
 * chunks overwrite, repeatable chunks append to a list created on first use.
 */
module Form {
  import opened Wrappers
  import opened Bytes
  import opened ChunkTypes

  /** The entries of an optional list, none when the list was never created. */
  function ListOf<T>(list: Option<seq<T>>): seq<T>
  {
    match list
    case None => []
    case Some(xs) => xs
  }

  /** A list with `x` pushed at its end, created first when absent. */
  function Pushed<T>(list: Option<seq<T>>, x: T): (r: Option<seq<T>>)
    ensures r.Some?
    ensures |r.value| == |ListOf(list)| + 1
    ensures r.value[..|ListOf(list)|] == ListOf(list) && r.value[|ListOf(list)|] == x
  {
    Some(ListOf(list) + [x])
  }

  datatype FormData = FormData(
    common: Option<CommonChunk>,
    sound: Option<SoundDataChunk>,
    comments: Option<CommentsChunk>,
    instrument: Option<InstrumentChunk>,
    recording: Option<AudioRecordingChunk>,
    texts: Option<seq<TextChunk>>,
    markers: Option<seq<MarkerChunk>>,
    midi: Option<seq<MIDIDataChunk>>,
    apps: Option<seq<ApplicationSpecificChunk>>)
  {
    function SetCommon(c: CommonChunk): FormData { this.(common := Some(c)) }
    function SetSound(c: SoundDataChunk): FormData { this.(sound := Some(c)) }
    function SetComments(c: CommentsChunk): FormData { this.(comments := Some(c)) }
    function SetInstrument(c: InstrumentChunk): FormData { this.(instrument := Some(c)) }
    function SetRecording(c: AudioRecordingChunk): FormData { this.(recording := Some(c)) }
    function AddText(c: TextChunk): FormData { this.(texts := Pushed(texts, c)) }
    function AddMarker(c: MarkerChunk): FormData { this.(markers := Pushed(markers, c)) }
    function AddMidi(c: MIDIDataChunk): FormData { this.(midi := Pushed(midi, c)) }
    function AddApp(c: ApplicationSpecificChunk): FormData { this.(apps := Pushed(apps, c)) }
  }

  /** The aggregate a successful FORM decode starts from: nothing set. */
  const EmptyForm := FormData(None, None, None, None, None, None, None, None, None)

  /** The duration as the quotient frames / rate; the float division is not modelled. */
  datatype Quotient = Quotient(numSampleFrames: UInt32, sampleRate: ExtendedFloat)

  /**
   * Adding a sequence of text chunks one by one leaves exactly those chunks,
   * in the order they were added, behind whatever was there before.
   */
  function AddTexts(f: FormData, cs: seq<TextChunk>): FormData
    decreases |cs|
  {
    if cs == [] then f else AddTexts(f.AddText(cs[0]), cs[1..])
  }

  lemma {:induction false} AddTextsInOrder(f: FormData, cs: seq<TextChunk>)
    ensures ListOf(AddTexts(f, cs).texts) == ListOf(f.texts) + cs
    ensures cs != [] ==> AddTexts(f, cs).texts.Some?
    ensures AddTexts(f, cs).(texts := f.texts) == f
    decreases |cs|
  {
    if cs != [] {
      AddTextsInOrder(f.AddText(cs[0]), cs[1..]);
      assert ListOf(f.texts) + [cs[0]] + cs[1..] == ListOf(f.texts) + cs;
    }
  }

  class FormChunk {
    var common: Option<CommonChunk>
    var sound: Option<SoundDataChunk>
    var comments: Option<CommentsChunk>
    var instrument: Option<InstrumentChunk>
    var recording: Option<AudioRecordingChunk>
    var texts: Option<seq<TextChunk>>
    var markers: Option<seq<MarkerChunk>>
    var midi: Option<seq<MIDIDataChunk>>
    var apps: Option<seq<ApplicationSpecificChunk>>

    /** The aggregate as a value. */
    function Value(): FormData
      reads this
    {
      FormData(common, sound, comments, instrument, recording, texts, markers, midi, apps)
    }

    constructor (init: FormData)
      ensures Value() == init
    {
      common, sound, comments := init.common, init.sound, init.comments;
      instrument, recording := init.instrument, init.recording;
      texts, markers, midi, apps := init.texts, init.markers, init.midi, init.apps;
    }

    method SetCommon(c: CommonChunk)
      modifies this
      ensures Value() == old(Value()).SetCommon(c)
    {
      common := Some(c);
    }

    method SetSound(c: SoundDataChunk)
      modifies this
      ensures Value() == old(Value()).SetSound(c)
    {
      sound := Some(c);
    }

    method SetComments(c: CommentsChunk)
      modifies this
      ensures Value() == old(Value()).SetComments(c)
    {
      comments := Some(c);
    }

    method SetInstrument(c: InstrumentChunk)
      modifies this
      ensures Value() == old(Value()).SetInstrument(c)
    {
      instrument := Some(c);
    }

    method SetRecording(c: AudioRecordingChunk)
      modifies this
      ensures Value() == old(Value()).SetRecording(c)
    {
      recording := Some(c);
    }

    method AddTextChunk(c: TextChunk)
      modifies this
      ensures Value() == old(Value()).AddText(c)
    {
      if texts.None? {
        texts := Some([]);
      }
      texts := Some(texts.value + [c]);
    }

    method AddMarkerChunk(c: MarkerChunk)
      modifies this
      ensures Value() == old(Value()).AddMarker(c)
    {
      if markers.None? {
        markers := Some([]);
      }
      markers := Some(markers.value + [c]);
    }

    method AddMidiChunk(c: MIDIDataChunk)
      modifies this
      ensures Value() == old(Value()).AddMidi(c)
    {
      if midi.None? {
        midi := Some([]);
      }
      midi := Some(midi.value + [c]);
    }

    method AddAppChunk(c: ApplicationSpecificChunk)
      modifies this
      ensures Value() == old(Value()).AddApp(c)
    {
      if apps.None? {
        apps := Some([]);
      }
      apps := Some(apps.value + [c]);
    }

    /** Present exactly when a common chunk has been set. */
    function Duration(): (d: Option<Quotient>)
      reads this
      ensures d.Some? <==> common.Some?
      ensures d.Some? ==>
        d.value.numSampleFrames == common.value.numSampleFrames && d.value.sampleRate == common.value.sampleRate
    {
      match common
      case Some(c) => Some(Quotient(c.numSampleFrames, c.sampleRate))
      case None => None
    }
  }
}
