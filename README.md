# AIFF chunk decoder, modelled in Dafny

This project models the decoding core of an AIFF reader written in Rust (`src/chunks.rs` and `src/reader.rs`), and proves properties of that model.

An AIFF file is a `FORM` chunk followed by tagged, size-prefixed sub-chunks. The reader works on a seekable byte stream in these steps:

- It rewinds, decodes the `FORM` header, then reads 4-byte tags while at least four bytes remain.
- It dispatches each tag to the matching chunk decoder.
- A decoder runs in one of two modes. In "decode" mode it materialises the payload. In "skip" mode it only seeks past it.
- Decoded chunks are folded into a `FormChunk` aggregate: singleton chunks overwrite their field, repeatable chunks append to a list.
- Embedded ID3v2 tags are decoded into a separate field.
- A tag → offset cache records where each tag's decoder started, so that a later read of the same tag seeks back there.
- Finally, `samples` cuts the sound data into sample points.

Layout of the model, one module per file:

| file | module | what it holds |
|---|---|---|
| `bytes.dfy` | `Bytes` | Bytes as integers 0..255. Big-endian unsigned decoding, two's-complement reinterpretation, encoders and round-trip lemmas. |
| `wrappers.dfy` | `Wrappers` | `Option` and `Result`. |
| `ids.dfy` | `Ids` | The tag constants. |
| `chunk_types.dfy` | `ChunkTypes` | The decoded chunk values and `ChunkError`. `Codecs` stands for the two decoders the core calls but does not define. |
| `cursor.dfy` | `Cursors` | The stream as a class: the bytes (`data`) and a mutable position (`pos`). |
| `primitives.dfy` | `Primitives` | The fixed-width readers and the Pascal-string reader, as methods on the cursor. |
| `form.dfy` | `Form` | The `FormChunk` class. Its value is the `FormData` datatype. |
| `chunk_spec.dfy` | `ChunkSpec` | Each decoder as a function of the bytes and a start position (see below). |
| `chunk_parsers.dfy` | `Chunks` | Each decoder as an imperative method on the cursor, proved equal to its function. |
| `chunk_props.dfy` | `ChunkProps` | What the decoders promise: tag and size gates, bytes consumed in both modes, list counts. |
| `chunk_layout.dfy` | `ChunkLayout` | An encoder per chunk layout and a round-trip lemma: decoding the encoding yields the chunk and the position just past it. |
| `scan_spec.dfy` | `Scan` | The cached `read_chunk`, one dispatch step of the scan loop, and runs of that step with fuel. |
| `aiff_reader.dfy` | `Reader` | The `AiffReader` class, whose methods are proved to follow `Scan`, and `samples`. |

How the decoder functions in `ChunkSpec` report their outcome:

- A decoder function returns `Option<Parsed<T>>`.
- `None` means the source panics: a read past the end, a negative size cast to `usize` in decode mode, or a failed foreign decode that is unwrapped. A negative size in skip mode is also `None`, although the source does not always panic there (see "## Left out").
- Otherwise it returns the decoder's `Result<Option<T>, ChunkError>` and the position where it leaves the stream.

Where the code departs from AIFF 1.3, the model follows the code:

- An unknown tag consumes only its 4 tag bytes. It is not skipped by its size.
- A comment's text gets no pad byte.
- A Pascal string gets a pad byte when its count is odd (src/reader.rs:288-291). AIFF 1.3 pads so that 1 + count is even, that is, when the count is even. `Primitives.PStringAt` follows the code.
- The marker, comments and instrument decoders ignore the skip/decode flag.

The scan has a recovery branch for a failed embedded-tag decode (src/reader.rs:137-140, 150-153). It cannot be reached: `read_chunk` unwraps the decoder's error at src/reader.rs:54, so a failed decode panics first.

An "ID3" marker at offset 1 of the tag window panics, because the scan passes the 3-byte `ids::ID3` as the tag (see "## Findings"). The scan `Scan.Step` keeps this behaviour, so a scan that meets such a window does not complete. The corrected arm is proved on its own in `Scan.Id3OffsetOneDecoded`.

The model treats two cases as panics where the source goes on: a negative chunk size in skip mode, and a seek past the end of the bytes (see "## Left out").

## Model

| member | source | states |
|---|---|---|
| Bytes.U16RoundTrip | src/reader.rs:242-248 | decoding the big-endian encoding of any u16 gives that value back |
| Bytes.U16BytesRoundTrip | src/reader.rs:242-248 | encoding the decoded value of any 2 bytes gives those bytes back, so the u16 decode is a bijection |
| Bytes.U16MostSignificantFirst | src/reader.rs:242-248 | the first byte dominates the order of decoded values (big-endian) |
| Bytes.U32RoundTrip | src/reader.rs:250-256 | decoding the big-endian encoding of any u32 gives that value back |
| Bytes.U32BytesRoundTrip | src/reader.rs:250-256 | encoding the decoded value of any 4 bytes gives those bytes back |
| Bytes.ToSigned8 | src/reader.rs:258-264 | the i8 reinterpretation is non-negative exactly when the byte is below 0x80, and is congruent to the byte mod 2^8 |
| Bytes.ToSigned16 | src/reader.rs:266-272 | the i16 reinterpretation is non-negative exactly below 0x8000, and is congruent mod 2^16 |
| Bytes.ToSigned32 | src/reader.rs:274-280 | the i32 reinterpretation is non-negative exactly below 0x8000_0000, and is congruent mod 2^32 |
| Bytes.I16RoundTrip | src/reader.rs:266-272 | decoding the two's-complement encoding of any i16 gives it back |
| Bytes.I16BytesRoundTrip | src/reader.rs:266-272 | encoding the i16 decoded from any 2 bytes gives those bytes back |
| Bytes.I32RoundTrip | src/reader.rs:274-280 | decoding the two's-complement encoding of any i32 gives it back |
| Bytes.I32BytesRoundTrip | src/reader.rs:274-280 | encoding the i32 decoded from any 4 bytes gives those bytes back |
| Bytes.I32SignBit | src/reader.rs:274-280 | a decoded i32 is negative exactly when the top bit of its first byte is set |
| Bytes.SignedBytesRoundTrip | src/chunks.rs:622 | reinterpreting the unsigned form of any i8 sequence gives the sequence back |
| Cursors.Cursor.constructor | src/reader.rs:27 | a new stream starts at position 0 over the given bytes |
| Cursors.Cursor.Rewind | src/reader.rs:64 | rewinding sets the position to 0 |
| Cursors.Cursor.Seek | src/chunks.rs:747-749 | a relative seek moves the position by exactly the offset |
| Cursors.Cursor.SeekStart | src/reader.rs:51 | an absolute seek sets the position to the target |
| Cursors.Cursor.ReadExact | src/chunks.rs:155-156 | `read_exact` returns the next n bytes verbatim and advances by n |
| Primitives.ReadChunkId | src/reader.rs:226-232 | returns the next 4 bytes verbatim and advances 4 |
| Primitives.ReadU8 | src/reader.rs:234-240 | returns the next byte and advances 1 |
| Primitives.ReadU16Be | src/reader.rs:242-248 | returns the big-endian u16 at the position and advances 2 |
| Primitives.ReadU32Be | src/reader.rs:250-256 | returns the big-endian u32 at the position and advances 4 |
| Primitives.ReadI8Be | src/reader.rs:258-264 | returns the i8 reinterpretation of the next byte and advances 1 |
| Primitives.ReadI16Be | src/reader.rs:266-272 | returns the two's-complement i16 at the position and advances 2 |
| Primitives.ReadI32Be | src/reader.rs:274-280 | returns the two's-complement i32 at the position and advances 4 |
| Primitives.PStringAt | src/reader.rs:283-294 | succeeds exactly when the length byte, the text and the pad byte (present when the length is odd) fit. The text has exactly `len` bytes, and 1 + len + (len mod 2) bytes are consumed |
| Primitives.PStringRoundTrip | src/reader.rs:283-294 | a Pascal string laid out with its pad reads back as itself, ending just past the pad |
| Primitives.ReadPString | src/reader.rs:283-294 | the method returns the text and final position that `PStringAt` gives |
| Form.Pushed | src/chunks.rs:78-87 | pushing creates the list if absent, keeps the existing entries in order, and puts the new one last |
| Form.AddTextsInOrder | src/chunks.rs:78-87 | adding text chunks one by one appends exactly those chunks, in order, and changes no other field |
| Form.FormChunk.constructor | src/chunks.rs:159-172 | the aggregate holds exactly the given value |
| Form.FormChunk.SetCommon | src/chunks.rs:54-56 | the new value is the old one with `common` overwritten (only that field, see Scan.FoldUpdatesOneField) |
| Form.FormChunk.SetSound | src/chunks.rs:62-64 | the new value is the old one with `sound` overwritten |
| Form.FormChunk.SetComments | src/chunks.rs:66-68 | the new value is the old one with `comments` overwritten |
| Form.FormChunk.SetInstrument | src/chunks.rs:70-72 | the new value is the old one with `instrument` overwritten |
| Form.FormChunk.SetRecording | src/chunks.rs:74-76 | the new value is the old one with `recording` overwritten |
| Form.FormChunk.AddTextChunk | src/chunks.rs:78-87 | the new value is the old one with the chunk pushed onto `texts`, creating the list first if absent |
| Form.FormChunk.AddMarkerChunk | src/chunks.rs:89-98 | the new value is the old one with the chunk pushed onto `markers` |
| Form.FormChunk.AddMidiChunk | src/chunks.rs:100-109 | the new value is the old one with the chunk pushed onto `midi` |
| Form.FormChunk.AddAppChunk | src/chunks.rs:111-120 | the new value is the old one with the chunk pushed onto `apps` |
| Form.FormChunk.Duration | src/chunks.rs:122-128 | present exactly when `common` is set, and then it is built from that chunk's frame count and rate |
| ChunkSpec.FormChunkAt | src/chunks.rs:131-179 | a successful FORM decode leaves the stream between its start and the end of the bytes |
| ChunkSpec.CommonChunkAt | src/chunks.rs:191-239 | a successful COMM decode leaves the stream within the bytes |
| ChunkSpec.SoundDataChunkAt | src/chunks.rs:249-290 | a successful SSND decode leaves the stream within the bytes |
| ChunkSpec.ItemsAt | src/chunks.rs:346-348 | a list read n times has exactly n items |
| ChunkSpec.ItemsWithin | src/chunks.rs:346-348 | a list of items that each stay within the bytes ends within the bytes |
| ChunkSpec.ItemsPrefix | src/chunks.rs:682-684 | list items come in stream order: the first i items are the list read i times, and item i is read where they end |
| ChunkSpec.MarkerAt | src/chunks.rs:302-313 | a marker consumes at least 7 bytes (id, position, length byte) and stays within the bytes |
| ChunkSpec.MarkersAt | src/chunks.rs:346-348 | reading n markers yields exactly n and stays within the bytes |
| ChunkSpec.MarkerChunkAt | src/chunks.rs:322-358 | a successful MARK decode consumes at least the 6 bytes of size and count |
| ChunkSpec.CommentAt | src/chunks.rs:638-653 | a comment consumes exactly 8 + `count` bytes, with no pad |
| ChunkSpec.CommentsAt | src/chunks.rs:682-684 | reading n comments yields exactly n and stays within the bytes |
| ChunkSpec.CommentsChunkAt | src/chunks.rs:663-694 | a successful COMT decode consumes at least the 6 bytes of size and count |
| ChunkSpec.TextChunkAt | src/chunks.rs:375-421 | a successful text decode leaves the stream within the bytes |
| ChunkSpec.InstrumentChunkAt | src/chunks.rs:461-503 | a successful INST decode leaves the stream within the bytes |
| ChunkSpec.MIDIDataChunkAt | src/chunks.rs:511-541 | a successful MIDI decode leaves the stream within the bytes |
| ChunkSpec.AudioRecordingChunkAt | src/chunks.rs:551-582 | a successful AESD decode leaves the stream within the bytes |
| ChunkSpec.ApplicationSpecificChunkAt | src/chunks.rs:591-626 | a successful APPL decode leaves the stream within the bytes |
| ChunkSpec.ID3v2ChunkAt | src/chunks.rs:730-757 | a successful embedded-tag decode leaves the stream within the bytes |
| ChunkProps.TagGate | src/chunks.rs:138-144 | for every decoder: it fails with `InvalidID(id)` without consuming a byte exactly when its tag check rejects `id` |
| ChunkProps.SkipMatchesDecode | src/chunks.rs:264-272 | skip and decode mode panic on the same inputs and leave the stream at the same position. The marker, instrument, comments and ID3 decoders give identical results in both modes |
| ChunkProps.SkipYieldsNoValue | src/chunks.rs:149-153 | a successful skip-mode decode yields no value, except for the four decoders that ignore the flag; decode mode always yields one |
| ChunkProps.ParseKindKind | src/reader.rs:77-123 | the value a decoder yields is of that decoder's kind |
| ChunkProps.ParseKindWithin | src/chunks.rs:131-834 | every successful decode ends between its start and the end of the bytes |
| ChunkProps.FormTypeGate | src/chunks.rs:146-178 | FORM consumes 8 bytes in both modes. Skip mode yields `Ok(None)`. Decode mode yields the empty aggregate exactly when the form type is `AIFF`, and `InvalidFormType(those 4 bytes)` otherwise |
| ChunkProps.EmptyFormHasNothing | src/chunks.rs:159-172 | the aggregate a FORM decode starts from has every field unset |
| ChunkProps.FormDecodeNeverEmpty | src/reader.rs:67-70 | decode-mode FORM never yields `Ok(None)`, so the `InvalidData` return of `analyze_data` is unreachable |
| ChunkProps.CommonConsumption | src/chunks.rs:206-227 | COMM consumes 22 bytes in both modes. A sample rate the extended decoder rejects gives `InvalidData("Extended Precision")` |
| ChunkProps.SoundConsumption | src/chunks.rs:264-279 | SSND consumes 12 + size bytes in both modes, and the decoded data has exactly `size` bytes |
| ChunkProps.MidiConsumption | src/chunks.rs:526-535 | MIDI consumes 4 + size bytes in both modes, and the decoded data has exactly `size` bytes |
| ChunkProps.ApplicationConsumption | src/chunks.rs:606-622 | APPL consumes 4 + size bytes in both modes. The data has `size - 4` bytes, each reinterpreted as i8, after the 4-byte signature |
| ChunkProps.TextConsumption | src/chunks.rs:394-407 | a text chunk consumes 4 + size + (1 if size is odd) bytes in both modes, an even count. The text has exactly `size` bytes, and its type is the tag's |
| ChunkProps.TextTypes | src/chunks.rs:386-392 | NAME, AUTH, `(c) ` and ANNO map to Name, Author, Copyright and Annotation, and each type only from its own tag |
| ChunkProps.RecordingSizeGate | src/chunks.rs:566-578 | AESD fails with `InvalidSize(24, size)` after the size field exactly when size ≠ 24. Otherwise it consumes 24 more bytes in both modes and decodes them verbatim |
| ChunkProps.InstrumentConsumption | src/chunks.rs:476-486 | INST succeeds exactly when 24 bytes follow the tag, consumes exactly those, and always yields a value |
| ChunkProps.MarkerCount | src/chunks.rs:337-356 | MARK always yields a value holding exactly `num_markers` markers, which are the markers read in stream order after the count |
| ChunkProps.CommentCount | src/chunks.rs:678-692 | COMT always yields a value holding exactly `num_comments` comments, read in stream order after the count |
| ChunkProps.CommentConsumption | src/chunks.rs:638-645 | a comment consumes 8 + `count` bytes, `count` is the u16 at offset 6, and the text is exactly the bytes after it (no pad) |
| ChunkProps.Id3VersionGate | src/chunks.rs:741-757 | an ID3 marker fails with `InvalidID3Version(the two version bytes)` and the position restored exactly when major > 4 or minor ≠ 0. Otherwise a tag the codec reads is returned, ending where the codec stopped |
| ChunkLayout.ItemsRoundTrip | src/chunks.rs:346-348 | n items laid out back to back read back as those n items, ending just past them |
| ChunkLayout.FormRoundTrip | src/chunks.rs:146-178 | a FORM header with type `AIFF` decodes to the empty aggregate, and any other type to `InvalidFormType`, ending 8 bytes on |
| ChunkLayout.CommonRoundTrip | src/chunks.rs:206-237 | an encoded common chunk with an accepted rate decodes to itself, 22 bytes on |
| ChunkLayout.SoundRoundTrip | src/chunks.rs:264-288 | an encoded sound chunk decodes to itself, just past its data |
| ChunkLayout.MarkerRoundTrip | src/chunks.rs:302-313 | an encoded marker (name padded to even) decodes to itself |
| ChunkLayout.MarkersRoundTrip | src/chunks.rs:346-348 | a run of encoded markers decodes to those markers in order |
| ChunkLayout.MarkerChunkRoundTrip | src/chunks.rs:337-356 | an encoded marker chunk decodes to itself |
| ChunkLayout.CommentRoundTrip | src/chunks.rs:638-653 | an encoded comment (no pad) decodes to itself |
| ChunkLayout.CommentsRoundTrip | src/chunks.rs:682-684 | a run of encoded comments decodes to those comments in order |
| ChunkLayout.CommentsChunkRoundTrip | src/chunks.rs:678-692 | an encoded comments chunk decodes to itself |
| ChunkLayout.TextId | src/chunks.rs:386-392 | every text type has a tag that selects it |
| ChunkLayout.TextRoundTrip | src/chunks.rs:394-419 | an encoded text chunk, padded when odd, decodes to itself just past the pad |
| ChunkLayout.LoopRoundTrip | src/chunks.rs:433-444 | an encoded loop decodes to itself |
| ChunkLayout.InstrumentRoundTrip | src/chunks.rs:476-501 | an encoded instrument chunk decodes to itself, 24 bytes on |
| ChunkLayout.MIDIRoundTrip | src/chunks.rs:526-539 | an encoded MIDI chunk decodes to itself |
| ChunkLayout.RecordingRoundTrip | src/chunks.rs:566-580 | an encoded 24-byte recording chunk decodes to itself, 28 bytes on |
| ChunkLayout.ApplicationRoundTrip | src/chunks.rs:606-624 | an encoded application chunk (signed payload) decodes to itself |
| Chunks.ParseForm | src/chunks.rs:131-179 | records the position after the tag when asked, and returns and leaves the stream exactly as `FormChunkAt` |
| Chunks.ParseCommon | src/chunks.rs:191-239 | records the position when asked, and returns and leaves the stream exactly as `CommonChunkAt` |
| Chunks.ParseSoundData | src/chunks.rs:249-290 | records the position when asked, and returns and leaves the stream exactly as `SoundDataChunkAt` |
| Chunks.ReadMarker | src/chunks.rs:302-313 | reads one marker exactly as `MarkerAt` |
| Chunks.ParseMarker | src/chunks.rs:322-358 | the marker loop returns and leaves the stream exactly as `MarkerChunkAt` |
| Chunks.ParseText | src/chunks.rs:375-421 | returns and leaves the stream exactly as `TextChunkAt`, pad byte included |
| Chunks.ReadLoop | src/chunks.rs:433-444 | reads a loop record as `LoopAt` and advances 6 |
| Chunks.ParseInstrument | src/chunks.rs:461-503 | returns and leaves the stream exactly as `InstrumentChunkAt` |
| Chunks.ParseMIDIData | src/chunks.rs:511-541 | returns and leaves the stream exactly as `MIDIDataChunkAt` |
| Chunks.ParseAudioRecording | src/chunks.rs:551-582 | returns and leaves the stream exactly as `AudioRecordingChunkAt` |
| Chunks.ParseApplicationSpecific | src/chunks.rs:591-626 | returns and leaves the stream exactly as `ApplicationSpecificChunkAt` |
| Chunks.ReadComment | src/chunks.rs:638-653 | reads one comment exactly as `CommentAt` |
| Chunks.ParseComments | src/chunks.rs:663-694 | the comment loop returns and leaves the stream exactly as `CommentsChunkAt` |
| Chunks.ParseID3v2 | src/chunks.rs:730-757 | the peek (+3, read 2, −5) and the tag read return and leave the stream exactly as `ID3v2ChunkAt` |
| Chunks.ParseChunk | src/reader.rs:54 | the decoder of the requested kind, with the same result and final position as `ParseKind` |
| Scan.ReadChunkAt | src/reader.rs:46-61 | a cached read succeeds only for a 4-byte tag and ends within the bytes |
| Scan.ReadChunkCache | src/reader.rs:47-58 | without recording the cache is unchanged. With recording the tag maps to the position where its decoder started (the cached one if present, else the current one), and every other entry is kept. No other key enters the cache |
| Scan.CachedReread | src/reader.rs:50-57 | once a tag is recorded, reading it again from any position seeks back and gives the same chunk, end position and cache |
| Scan.DecoderForAccepts | src/reader.rs:77-123 | the dispatch sends a tag to a decoder exactly when that decoder's tag check accepts it |
| Scan.Id3Branch | src/reader.rs:131-157 | an ID3 marker leaves the aggregate unchanged and the stream within the bytes |
| Scan.DecodeBranch | src/reader.rs:78-123 | a dispatched decode leaves the embedded tag unchanged and the stream within the bytes |
| Scan.Step | src/reader.rs:73-169 | one pass of the loop leaves the stream within the bytes. An ID3 marker at window offset 1 panics, as written (see Scan.Id3OffsetOneAsWrittenPanics) |
| Scan.Run | src/reader.rs:72-170 | a finished run stops with fewer than 4 bytes left |
| Scan.RunStep | src/reader.rs:72 | a finishing run with a tag left takes a step and finishes from there with the same outcome |
| Scan.RunWithin | src/reader.rs:72-170 | a run of a step that stays within the bytes finishes within them |
| Scan.RunMoreFuel | src/reader.rs:72-170 | a finishing run finishes the same way with more fuel |
| Scan.FuelIrrelevant | src/reader.rs:72-170 | two finishing runs from the same state finish in the same state |
| Scan.FuelIrrelevantAll | src/reader.rs:72-170 | every finishing run from a state agrees with a given one |
| Scan.Begin | src/reader.rs:64-70 | the start state keeps the embedded tag and is within the bytes |
| Scan.ScanResult | src/reader.rs:63-178 | the scan's end state has fewer than 4 bytes left and is the end state of every finishing run. A scan completes only if no step panics, so an input with FVER, an Apple tag or an ID3 marker at window offset 1 has no end state |
| Scan.FoldUpdatesOneField | src/reader.rs:77-123 | COMM, SSND, INST, AESD and COMT overwrite their own field only. MARK, MIDI, APPL and text append to their own list only. FORM and ID3 values change nothing |
| Scan.UnknownTagSkipped | src/reader.rs:158-167 | an unrecognised tag, or a TAG marker at either offset, consumes exactly its 4 bytes and changes nothing else |
| Scan.Id3OffsetZeroDecoded | src/reader.rs:131-143 | an ID3 marker at the start of the window is decoded from the marker (or its cached offset). Its tag goes to `id3v2_tag`, the aggregate is unchanged, the scan continues just past the tag and, when recording, the marker position is cached |
| Scan.DecodedTagFolded | src/reader.rs:77-123 | a dispatched tag runs its decoder from after the tag. A value of that decoder's kind is folded in; no value leaves the aggregate unchanged. The embedded tag is kept |
| Scan.Id3OffsetOneAsWrittenPanics | src/reader.rs:144-147 | as written, a step at a window with an ID3 marker at offset 1 always panics, whatever follows |
| Scan.Id3OffsetOneDecoded | src/reader.rs:144-149 | corrected, with the window `Scan.Id3Key` as the tag, an ID3 marker at offset 1 is decoded from the marker. Its tag goes to `id3v2_tag`, and the scan continues just past the tag |
| Scan.CachedTagSeeksBack | src/reader.rs:50-52 | as written, with recording, a decoded tag already in the cache is decoded again from the cached offset: the cursor ends where that earlier decode ends and the cache is unchanged |
| Scan.RunFixedPoint | src/reader.rs:72 | a state with a tag left that the step maps to itself is never left: the loop does not end |
| Scan.RepeatedMidiNeverCompletes | src/reader.rs:40-44 | as written, `parse_form_location` never returns on a form holding two empty MIDI chunks |
| Scan.StepAtCursorAdvances | src/reader.rs:72-169 | corrected, a step never moves the cursor back. A decoded or skipped tag moves it past the window, and every recorded offset is kept |
| Scan.RepeatedMidiCompletesAtCursor | src/reader.rs:40-44 | corrected, `parse_form_location` returns on the same form after two steps, past both chunks, with both tags recorded at their first offsets |
| Reader.Absorb | src/reader.rs:77-123 | folding a chunk into the aggregate object changes its value exactly as `Fold` |
| Reader.BytesPerPoint | src/reader.rs:206-209 | bytes per point is the bit depth rounded up to whole bytes: the least n with bit depth ≤ 8n |
| Reader.AiffReader.constructor | src/reader.rs:25-34 | a new reader has position 0, no aggregate, no tag and an empty cache |
| Reader.AiffReader.ReadChunk | src/reader.rs:46-61 | the cached seek, the decode and the cache update give exactly the chunk, position and cache of `ReadChunkAt`, and the aggregate and tag are untouched |
| Reader.AiffReader.ScanDecoded | src/reader.rs:78-123 | a dispatched decode and fold gives exactly the state of `DecodeBranch` |
| Reader.AiffReader.ScanId3 | src/reader.rs:131-157 | the rewind to the marker and the embedded-tag decode, with the tag passed as written, give exactly the state of `Id3Branch` |
| Reader.AiffReader.ScanOne | src/reader.rs:73-169 | one pass of the loop gives exactly the state of `Step` |
| Reader.AiffReader.ScanStep | src/reader.rs:72-169 | one pass moves to a state whose shorter run has the same outcome |
| Reader.AiffReader.ScanStart | src/reader.rs:64-70 | rewinding and decoding FORM in decode mode gives exactly the state of `Begin` |
| Reader.AiffReader.ScanLoop | src/reader.rs:72-170 | the loop `while available() >= 4` ends in the end state of the finishing run |
| Reader.AiffReader.AnalyzeData | src/reader.rs:63-178 | the aggregate, tag, cache and position end as `ScanResult` |
| Reader.AiffReader.ReadAllFormData | src/reader.rs:36-38 | a decode-mode, non-recording scan ends as `ScanResult` |
| Reader.AiffReader.ParseFormLocation | src/reader.rs:40-44 | a skip-mode, recording scan ends as `ScanResult` |
| Reader.AiffReader.Samples | src/reader.rs:190-216 | returns exactly frames × channels points. Point i is decoded at offset i × bytes-per-point of the sound data, with the bit depth |

## Left out

- Reader.AiffReader.AnalyzeData: requires that the scan completes. A recorded tag that occurs again makes the reader seek back to its first occurrence, and the scan may then revisit it forever (see "## Findings": Scan.RepeatedMidiNeverCompletes). So the method is stated only for inputs on which the scan ends; termination is not proved.
- Reader.AiffReader.ScanOne: FVER and the Apple chunks (`CHAN`, `basc`, `trns`, `cate`) hit `unimplemented!` (src/reader.rs:124-126, 160-162). They are excluded by the precondition, not modelled as panics.
- Reader.AiffReader.ScanId3: the recovery branch after a failed embedded-tag decode (src/reader.rs:137-140, 150-153) is unreachable. A decode error is unwrapped at src/reader.rs:54, and the ID3 decoder never returns `Ok(None)`. It is marked unreachable, not modelled.
- Reader.AiffReader.ReadChunk: the UTF-8 check of the tag used as the cache key (src/reader.rs:47) is not modelled. The key is the raw 4 bytes.
- Reader.AiffReader.Samples: requires a non-negative channel count and bit depth, and a frame × channel product below 2^32. The source's `as u32` / `as usize` casts of negative values, and an overflowing u32 product, are not modelled.
- ChunkSpec.SoundDataChunkAt: a negative size is `None` in both modes. In skip mode the source seeks back by the size (src/chunks.rs:269), returns `Ok(None)` and the scan goes on from the earlier position, unless the target is before the start, where the unwrap panics. The model treats it as a panic.
- ChunkSpec.TextChunkAt: a negative size is `None` in both modes. In skip mode the source seeks back by size + pad (src/chunks.rs:398) and the scan goes on from there. The model treats it as a panic.
- ChunkSpec.MIDIDataChunkAt: a negative size is `None` in both modes. In skip mode the source seeks back by the size (src/chunks.rs:529) and the scan goes on from there. The model treats it as a panic.
- ChunkSpec.ApplicationSpecificChunkAt: a size below 4 is `None` in both modes. In skip mode the source seeks back by 4 − size (src/chunks.rs:610) and the scan goes on from there. The model treats it as a panic.
- ChunkProps.SkipMatchesDecode: "both modes panic on the same inputs" holds of the model only. For the four decoders above, a negative size (below 4 for APPL) panics in decode mode but moves the cursor back in skip mode in the source.
- Cursors.Cursor.Seek: requires the target within the bytes. The source may seek past the end; the model treats such a seek itself as a panic.
- UTF-8 validation of text, comment and marker names (src/chunks.rs:405, 645; src/reader.rs:293): text is kept as raw bytes.
- The extended-precision sample-rate decode: src/extended.rs is not part of this model. Its success is the uninterpreted `Codecs.extendedOk`, and the rate is kept as its 10 raw bytes.
- `id3::Tag::read_from` (src/chunks.rs:757) is a foreign crate. It is the uninterpreted `Codecs.readTag`, returning a tag and the bytes it consumed, or a failure (a panic once unwrapped).
- `SampleType::parse`: src/samples.rs is not part of this model. `Samples` takes it as the parameter `parsePoint`, and only the offsets and count passed to it are modelled.
- src/ids.rs is not part of this model. The tag constants are the four-character codes of AIFF 1.3 and the "ID3" and "TAG" markers. `ids::ID3` is taken to be the 3 bytes "ID3". This follows from the 3-byte slice comparisons at src/chunks.rs:741 and the comment at src/reader.rs:127.
- Form.FormChunk.Duration: the f64 division at src/chunks.rs:124 is not modelled. The duration is kept as the pair (frames, rate).
- `println!` logging, and the `BufReader` buffering (the stream is its bytes and a position).
- The `Ok(())` returned by `parse_form_location` and `analyze_data` carries nothing. The `InvalidData` return at src/reader.rs:69 is unreachable (ChunkProps.FormDecodeNeverEmpty).
- The accessors `form()`, `common()` and `sound()` (src/reader.rs:180-182, src/chunks.rs:50-60) only return fields. The reader keeps the aggregate as a `FormData` value in `formChunk`.

## Findings

| source | as written | input that shows it | evidently intended | confidence | as-written member | corrected member |
|---|---|---|---|---|---|---|
| src/reader.rs:144-147 | An "ID3" marker at window offset 1 calls `read_chunk` with the 3-byte `ids::ID3` as the tag. `chunk_id.try_into()` into a 4-byte id fails, and the unwrap panics (src/reader.rs:54). | A tag window `x I D 3` for any byte `x`: an embedded ID3v2 tag that starts one byte after a chunk boundary. | Pass the 4-byte window, as the offset-0 arm does. The ID3 decoder's tag check at src/chunks.rs:741 accepts ID3 at offset 1, so the tag is decoded from the marker. The corrected key is `Scan.Id3Key`; the scan keeps the key as written. | high, not executed | Scan.Id3OffsetOneAsWrittenPanics | Scan.Id3OffsetOneDecoded |
| src/reader.rs:50-52 | `read_chunk` seeks to the cached offset of a tag whenever one is recorded, also during the scan of `analyze_data`. With recording, a tag that occurs twice sends the scan back to the first occurrence, and the `while` at src/reader.rs:72 never ends. | `parse_form_location` on a form holding two MIDI (or ANNO, APPL, MARK …) chunks, e.g. "FORM", size 20, "AIFF", then "MIDI" with size 0 twice. | During the scan, decode each tag from the cursor and keep the first recorded offset (`Scan.StepAtCursor`); then every step moves forward. | high, not executed | Scan.RepeatedMidiNeverCompletes | Scan.RepeatedMidiCompletesAtCursor |
