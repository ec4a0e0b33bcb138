# 8DMaker core in Dafny

8DMaker is a browser tool that turns a song into "8D audio". It does this by sweeping the stereo pan
from side to side. This project models the parts of its `AudioProcessor` that decide something, and
three small pieces of its page controller and preset table:

- **WAV serialiser** (`wav.dfy`). `encodeWAV`, `writeString`, `interleave` and `audioBufferToWav`
  write a 44-byte RIFF/WAVE header followed by 16-bit samples. The header holds a PCM `fmt ` chunk
  as chapter 3 of the Microsoft/IBM *Multimedia Programming Interface and Data Specifications 1.0*
  defines it, with every field little-endian. Samples are clamped to [-1, 1], scaled by 32768 when
  negative and by 32767 otherwise, and truncated. The writers are methods over an `array<byte>` that
  play the part of the DataView. They are proved against the byte sequence `WavFile`, and the header
  fields and samples are proved to read back. As written, `encodeWAV` throws for every non-empty
  sample list, because its `offset` is a `const` (see Findings). So every `audioBufferToWav` and
  every export fails in the source. The encoder modelled here, and everything built on it, is the
  intended one, with `offset` advancing by 2.
- **Pan patterns** (`panning.dfy`). The `sine`/`triangle`/`square`/`random` switch is shared by the
  live panner and the export. The module also covers the live phase update and the two ways an
  entry of the random table is picked. `Math.sin` is a function parameter. A table read out of
  range gives `undefined`; times the amount, that makes NaN, modelled as `Number.NaN`.
- **Export chunk loop** (`export.dfy`). The frames are walked in chunks of 1024. Each chunk
  assigns a pan value at phase `i / totalFrames` and reports the fraction of frames done. The loop
  assigns `panner.pan.value` before `startRendering` is called, so what it produces is the list of
  values assigned and the list of progress reports. It does not produce per-chunk audio.
- **Transport** (`transport.dfy`). The `AudioProcessor` class holds `processingStarted`,
  `isPaused`, `offsetTime`, `startTime` and the promise and reject fields. Its `processAudio`,
  `pause`, `resume`, `stop` and `onended` are methods. Each is proved equal to a function on a
  `TransportState` value, and an invariant and the position arithmetic are proved about those
  functions. The audio clock `audioContext.currentTime` is the parameter `now`. Whether the audio
  context is suspended is the field `suspended`: `pause` suspends it and `resume` resumes it, but
  neither `stop` nor a new `processAudio` resumes it, so a session started after a pause is
  not paused while its context stays suspended.
- **Page controller** (`app.dfy`):
  - the download name `name.replace(/\.[^/.]+$/, '') + '_8D.wav'`;
  - the three button-enable conditions;
  - the pause toggle;
  - the no-blob guard of the download.
- **Presets** (`presets.dfy`). The four fixed presets, `generateRandom` with its eight
  `Math.random()` draws given as parameters, and `getByName`.

Numbers are exact reals and unbounded integers. JavaScript's truncating `%` and `Math.floor` are
written out in `jsnumber.dfy`. The ToUint16/ToUint32/ToInt16 reductions of the DataView setters are
explicit modulo operations in `wav.dfy`.

Behaviours of the code worth knowing:
- The export never applies a pan value to the samples of its chunk. The rendered buffer is a
  parameter of `ExportAudio`.
- `audioBufferToWav` accepts any channel count. It interleaves for exactly two channels and writes
  channel 0 alone for any other count; it does not reject non-stereo input.
- There is no render cancellation.
- `resume` restarts the clock at `now`. It does not restart from the stored offset.
- Progress is reported only when `onProgress` is a function. The model always reports it.

## Model

| member | source | states |
|---|---|---|
| JsNumber.Rem | audio-processor.js:201 | JavaScript `%` on Numbers: a non-negative dividend gives a result in [0, m); a negative one gives a result in (-m, 0] |
| JsNumber.IntRem | audio-processor.js:190 | `%` on integers takes the sign of the dividend, and for a non-negative dividend agrees with the Euclidean remainder |
| JsNumber.Trunc | audio-processor.js:458 | the truncation toward zero that setInt16 applies: the result is within one step of x, on the side of zero |
| JsNumber.Floor | audio-processor.js:190 | Math.floor: the greatest integer not above x |
| JsNumber.RemOfSmall | audio-processor.js:187 | within one period, `%` returns the dividend unchanged |
| JsNumber.RemShift | audio-processor.js:187 | adding one period to a non-negative dividend does not change the remainder |
| Wav.LittleEndian | audio-processor.js:436-451 | setUintN stores exactly `width` bytes |
| Wav.LittleEndianByte | audio-processor.js:436-451 | byte i of what setUintN stores is (v / 256^i) mod 256: the least significant byte comes first |
| Wav.U16 | audio-processor.js:442-447 | setUint16 stores two bytes |
| Wav.U32 | audio-processor.js:436-451 | setUint32 stores four bytes |
| Wav.I16 | audio-processor.js:458 | setInt16 stores two bytes, the value taken modulo 2^16 |
| Wav.LittleEndianRoundTrip | audio-processor.js:436-451 | reading back the bytes that setUintN wrote gives the value modulo 2^(8·width) |
| Wav.Quantise | audio-processor.js:457-458 | the stored integer lies in [-32768, 32767], so nothing wraps; a non-zero stored value has the sign of the clamped sample |
| Wav.Clamp | audio-processor.js:457 | the clamp lies in [-1, 1] and leaves samples already in range unchanged |
| Wav.QuantisationError | audio-processor.js:457-458 | dequantising a stored sample recovers the clamped sample to within one quantisation step |
| Wav.Ascii | audio-processor.js:473-477 | writeString emits one byte per character |
| Wav.Header | audio-processor.js:428-451 | the header is exactly 44 bytes |
| Wav.HeaderSlices | audio-processor.js:434-451 | each header field sits at its offset: "RIFF", size 36 + data size, "WAVE", "fmt ", 16, format, channels, rate, byte rate, block align, 16, "data", data size |
| Wav.FmtFields | audio-processor.js:439-447 | the fields of the `fmt ` chunk sit at offsets 0, 4, 8, 10, 12, 16, 20 and 22 of the chunk |
| Wav.HeaderFields | audio-processor.js:428-451 | the file has 44 + 2n bytes; read back, its header gives: the four ASCII tags; RIFF size (36 + 2n) mod 2^32; fmt size 16; format and channels mod 2^16; rate mod 2^32; byte rate rate·channels·2 mod 2^32; block align channels·2 mod 2^16; 16 bits; data size 2n mod 2^32 |
| Wav.HeaderReads | audio-processor.js:435-451 | every numeric header field reads back as the value written, reduced as ToUint16/ToUint32 reduce it |
| Wav.SampleData | audio-processor.js:456-458 | the data chunk holds two bytes per sample |
| Wav.WavFile | audio-processor.js:427-459 | the encoded file has 44 + 2n bytes for n samples, the size of the ArrayBuffer allocated at :431 |
| Wav.SampleRoundTrip | audio-processor.js:456-458 | sample k of an encoded file, read as a little-endian int16 at 44 + 2k, is exactly the quantised sample |
| Wav.SampleBytes | audio-processor.js:456-458 | sample k is stored at bytes 44 + 2k and 45 + 2k, as the int16 of its quantised value |
| Wav.AllSamples | audio-processor.js:456-458 | every sample of an encoded file reads back as its quantised value |
| Wav.SilenceEncodesAsZeros | audio-processor.js:456-458 | an all-zero sample list encodes as zero bytes after the header |
| Wav.WriteString | audio-processor.js:473-477 | after the loop, the bytes at offset hold the character codes of the string, and nothing past them changed |
| Wav.Store | audio-processor.js:436 | one DataView setter: the bytes land at offset and nothing beyond them changes |
| Wav.WriteRiff | audio-processor.js:434-437 | the first 12 bytes become the RIFF descriptor, and nothing after them changes |
| Wav.WriteFmt | audio-processor.js:439-447 | bytes 12-35 become the `fmt ` chunk, after the untouched descriptor, and nothing after them changes |
| Wav.WriteFmtLayout | audio-processor.js:440-443 | bytes 12-23 become the tag, the chunk size 16, the format code and the channel count, and nothing else changes |
| Wav.WriteFmtRates | audio-processor.js:444-447 | bytes 24-35 become the sample rate, the byte rate, the block align and the bit depth 16, and nothing else changes |
| Wav.WriteDataHeader | audio-processor.js:449-451 | bytes 36-43 become "data" and the data size, and nothing after them changes |
| Wav.WriteHeader | audio-processor.js:428-451 | the first 44 bytes of the view are the header for the given parameters, and the sample area is untouched |
| Wav.WriteSamples | audio-processor.js:453-459 | the sample loop leaves the header as it was and writes sample i at bytes 44 + 2i |
| Wav.EncodeWav | audio-processor.js:427-465 | a bit depth other than 16 is refused with an error; a depth of 16 yields exactly the file WavFile describes, sample i at 44 + 2i |
| Wav.EncodeWavAsWritten | audio-processor.js:454-456 | as written, the `const offset` update throws for every non-empty sample list; only the empty list encodes |
| Wav.ConstOffsetCounterexample | audio-processor.js:454-456 | one silent sample is refused as written, while the intended encoder yields a 46-byte file |
| Wav.Interleaved | audio-processor.js:403-416 | the interleaving of equal-length channels has length 2n, and splitting it again gives both channels back |
| Wav.Interleave | audio-processor.js:403-416 | the loop fills L0 R0 L1 R1 …: length 2n, out[2k] = left[k], out[2k+1] = right[k], and it equals the interleaving |
| Wav.InterleavedFrames | audio-processor.js:409-413 | frame k of the interleaving is (left[k], right[k]) |
| Wav.FramesDetermine | audio-processor.js:403-416 | conversely, any sequence of length 2n holding (left[k], right[k]) at positions 2k and 2k+1 is the interleaving |
| Wav.BufferFrames | audio-processor.js:387-392 | the encoder is handed 2·length samples for two channels and length samples otherwise |
| Wav.AudioBufferToWav | audio-processor.js:381-395 | the result is the PCM file of the buffer: 44 + 2·(samples) bytes, format 1, the buffer's channel count and rate, 16 bits; for two channels frame k holds left[k] and right[k] quantised, otherwise sample k is channel 0's k-th sample |
| Wav.BufferWav | audio-processor.js:381-395 | a stereo buffer of n frames gives a file of 44 + 4n bytes, any other buffer one of 44 + 2n |
| Wav.BufferWavAsWrittenRejects | audio-processor.js:381-395 | as written, every decoded buffer is refused with the const-offset TypeError, since it has at least one frame |
| Wav.StereoWavHeader | audio-processor.js:382-394 | a stereo buffer of n frames at rate r gives 44 + 4n bytes, 2 channels and r mod 2^32 in the rate field |
| Wav.BufferWavHeader | audio-processor.js:382-394 | the file of a buffer carries format 1, its channel count, its rate and 16 bits |
| Wav.StereoSamples | audio-processor.js:388-389 | for a stereo buffer, samples 2k and 2k+1 of the file are the quantised left and right samples of frame k |
| Wav.MonoSamples | audio-processor.js:390-392 | for any other channel count, sample k of the file is channel 0's sample k, quantised |
| Panning.Triangle | audio-processor.js:187 | the triangle wave lies in [-1, 1] for a non-negative phase |
| Panning.Square | audio-processor.js:190 | the square wave is always +1 or -1 |
| Panning.Shape | audio-processor.js:182-198 | the switch yields a value for every pattern but "random" with an out-of-range table read |
| Panning.PanValue | audio-processor.js:182-198 | the assigned pan value is NaN exactly for the random pattern with an `undefined` table entry |
| Panning.TableEntry | audio-processor.js:194 | a table read is defined exactly for an index in range, and then yields a member of the table |
| Panning.LiveIndex | audio-processor.js:193 | `floor(phase·10) % n` is a valid index for a non-negative phase, and below 10 for a phase in [0, 1) |
| Panning.LiveEntry | audio-processor.js:192-194 | the live random read is defined for a non-empty table and a non-negative phase, and `undefined` for an empty table |
| Panning.ExportIndex | audio-processor.js:343 | `floor(random·n)` is a valid index for n > 0, and 0 for an empty table |
| Panning.ExportEntry | audio-processor.js:342-344 | the export's random read is defined exactly when the table is non-empty |
| Panning.PhaseDelta | audio-processor.js:174-176 | the phase step per 50 ms tick is panSpeed / 20, non-negative for a non-negative speed |
| Panning.NextPhase | audio-processor.js:201 | the updated phase stays in [0, 1) when phase + delta is non-negative |
| Panning.RandomTable | audio-processor.js:167-171 | the table has one entry per draw |
| Panning.SquareHalves | audio-processor.js:190 | square gives +amount for a phase in [0, 0.5) and -amount for a phase in [0.5, 1) |
| Panning.TriangleShape | audio-processor.js:187 | over one period the triangle is 1 - 4·phase on the first half and 4·phase - 3 on the second |
| Panning.TriangleAtZero | audio-processor.js:187 | triangle at phase 0 gives +amount |
| Panning.TrianglePeriodic | audio-processor.js:187 | the triangle has period 1 |
| Panning.UnknownPatternIsSine | audio-processor.js:196-197 | an unrecognised pattern name gives sine(phase)·amount |
| Panning.PanBounded | audio-processor.js:182-198 | with phase ≥ 0, amount ≥ 0, a sine bounded by 1 and table entries in [-1, 1], every defined pan value lies in [-amount, amount] |
| Panning.ShapeBounded | audio-processor.js:182-198 | every unit shape lies in [-1, 1] under the same conditions |
| Panning.LiveIndexInTable | audio-processor.js:167-194 | with the 100-entry table, the live index for a phase in [0, 1) is below 10 and reads a defined entry |
| Panning.RandomTableBounds | audio-processor.js:167-171 | every entry `r·2 - 1` of the random table lies in [-1, 1) |
| Panning.NextPhaseWraps | audio-processor.js:201 | with delta ≥ 0 the phase stays in [0, 1); it advances by delta below 1 and wraps once by 1 between 1 and 2 |
| Export.ChunkCount | audio-processor.js:325 | the loop runs no chunk exactly for an empty buffer, and never more chunks than frames |
| Export.ChunkSize | audio-processor.js:326 | a chunk never holds more than 1024 frames |
| Export.FramesBefore | audio-processor.js:320-354 | the frames counted after k chunks never exceed 1024·k nor the total |
| Export.Progress | audio-processor.js:354-358 | a progress report never exceeds 1 |
| Export.ChunkPan | audio-processor.js:329-351 | a chunk's pan value is NaN exactly for the random pattern with an empty table |
| Export.ChunkPhase | audio-processor.js:329 | each chunk's phase lies in [0, 1) |
| Export.RunChunks | audio-processor.js:320-360 | the loop fails exactly for the random pattern with an empty table; otherwise it makes one assignment and one report per chunk, chunk k assigning the pan value at its phase and reporting the frames done so far over the total |
| Export.ChunkStartBelowTotal | audio-processor.js:325 | the chunk starts 0, 1024, 2048, … below the total are exactly the first ceil(total/1024) |
| Export.ChunkCountIsCeiling | audio-processor.js:325 | there are ceil(total/1024) chunks, at least one for a non-empty buffer |
| Export.ChunkStartsAscend | audio-processor.js:325 | chunk starts ascend strictly, by at least 1024 |
| Export.ChunkSizeBounds | audio-processor.js:326 | every chunk size `min(1024, total - i)` lies in [1, 1024] |
| Export.FramesBeforeClosed | audio-processor.js:320-354 | after k chunks, framesProcessed is min(1024·k, total) |
| Export.ChunkSizesSumToTotal | audio-processor.js:325-354 | the chunk sizes sum to totalFrames |
| Export.ProgressIncreases | audio-processor.js:354-358 | the reported progress is positive and strictly increasing |
| Export.ProgressEndsAtOne | audio-processor.js:354-358 | the last progress report is exactly 1 |
| Export.ChunkPhaseValue | audio-processor.js:329 | within the loop the phase is i / totalFrames itself and ascends from chunk to chunk |
| Transport.Paused | audio-processor.js:250-256 | pause keeps the session, its promise and its start time, does not move the playback position, and leaves isPaused set exactly when it was set or the session is running with a context; when it acts it suspends the context, and otherwise the suspension is unchanged |
| Transport.Resumed | audio-processor.js:261-267 | resume keeps the session, its promise and its offset, does not move the playback position, and leaves isPaused set exactly when it was set and nothing could be resumed; when it acts it resumes the context, and otherwise the suspension is unchanged |
| Transport.Stopped | audio-processor.js:272-283 | after stop there is no promise, the transport invariant holds, the position is 0, and the context's suspension is as it was |
| Transport.Ended | audio-processor.js:233-238 | onended ends the session, keeps isPaused, the suspension and the reject holder, and leaves no pending promise |
| Transport.Superseded | audio-processor.js:212-217 | a replaced promise exists exactly when the old one did, and is no longer pending when its reject function is held |
| Transport.Started | audio-processor.js:211-245 | processAudio always holds a reject function; its promise is pending with a context and rejected without; with a context the session plays from `now`; after an earlier session the offset and position start at 0 |
| Transport.InitialInv | audio-processor.js:14-21 | the constructor's fields satisfy the transport invariant |
| Transport.InvPreserved | audio-processor.js:211-283 | pause, resume, stop, onended and processAudio keep the invariant as the clock advances: promise iff reject held, idle and zero times without a promise, offset ≥ 0, 0 ≤ startTime ≤ now |
| Transport.PauseEffect | audio-processor.js:250-256 | pause acts only when started, not paused and with a context; it then suspends the context, adds now - startTime to the offset and sets isPaused; otherwise nothing changes |
| Transport.PositionContinuous | audio-processor.js:250-267 | pausing and resuming do not move the playback position |
| Transport.PauseTimeExcluded | audio-processor.js:250-267 | time spent paused is excluded from the position after resuming |
| Transport.StopIdempotent | audio-processor.js:272-283 | stop leaves the constructor's state apart from the context's suspension, which it does not undo, and a second stop changes nothing |
| Transport.RestartAfterPauseStaysSuspended | audio-processor.js:211-267 | processing again after a pause starts a session that is not paused while the context stays suspended, and the next pause request pauses again without resuming it |
| Transport.StartsAtBeginning | audio-processor.js:211-230 | under the invariant, the offset passed to `sourceNode.start` is 0 and playback starts at position 0 |
| Transport.EndedKeepsPause | audio-processor.js:233-238 | onended clears processingStarted and zeroes both times, resolves a pending promise, and does not touch isPaused |
| Transport.RestartSupersedes | audio-processor.js:211-220 | starting while a promise is pending rejects it, and leaves a new promise that is pending when the context exists |
| Transport.AudioProcessor.constructor | audio-processor.js:5-22 | all transport fields start as the constructor sets them; no buffer, nodes, interval or table |
| Transport.AudioProcessor.Loaded | audio-processor.js:47-50 | a decoded buffer is kept and the context exists |
| Transport.AudioProcessor.DisposeAudioNodes | audio-processor.js:120-155 | afterwards no interval is held and no node is connected |
| Transport.AudioProcessor.StartPanning | audio-processor.js:161-178 | the random pattern refills the table with the 100 draws mapped by r·2 - 1; other patterns keep the table; the interval starts at phase 0 with step panSpeed/20 |
| Transport.AudioProcessor.PanTick | audio-processor.js:178-203 | while unpaused with a panner, the tick assigns the pattern's pan value and advances the phase; a NaN assignment throws and changes nothing |
| Transport.AudioProcessor.Supersede | audio-processor.js:212-217 | a pending promise whose reject function is held is rejected; any existing promise makes the transport `Stopped` of the old one, and without one nothing changes |
| Transport.AudioProcessor.ProcessAudio | audio-processor.js:211-245 | the new transport state is `Started` of the old one, the superseded promise is rejected if pending, and the nodes and interval exist exactly when the context does; with a context the new panner starts at pan 0, without one the pan is unchanged |
| Transport.AudioProcessor.Pause | audio-processor.js:250-256 | the new transport state is `Paused` of the old one: when it acts, the context is suspended |
| Transport.AudioProcessor.Resume | audio-processor.js:261-267 | the new transport state is `Resumed` of the old one: when it acts, the context is resumed |
| Transport.AudioProcessor.Stop | audio-processor.js:272-283 | the new transport state is the initial one except that the context's suspension is kept, with no interval and no nodes |
| Transport.AudioProcessor.OnEnded | audio-processor.js:233-238 | the new transport state is `Ended` of the old one |
| Transport.AudioProcessor.ExportAudio | audio-processor.js:289-374 | without a buffer the export fails; with one it fails exactly for the random pattern with an empty table; otherwise it yields the chunk schedule of `RunChunks` and the WAV of the rendered stereo buffer, whose length and rate are the loaded buffer's: 44 + 4·length bytes, 2 channels and the loaded sample rate in the header |
| Presets.DrawIndex | presets.js:73-74 | `floor(r·n)` for a draw r in [0, 1) is an index below n |
| Presets.GenerateRandom | presets.js:65-76 | with draws in [0, 1): panSpeed in [0.1, 5), panAmount in [0.1, 1), reverbAmount in [0, 0.9), roomSize in [0.1, 0.99), echoDelay in [0.1, 1), echoFeedback in [0, 0.7), one of the four pattern names, bassBoost an integer in [0, 14] |
| Presets.GetByName | presets.js:83-96 | the result is a fixed preset or a generated one within the random ranges |
| Presets.GetByNameCases | presets.js:84-94 | "suave", "intenso" and "psicodelico" give their presets, "aleatorio" gives generateRandom, any other name gives default |
| Presets.GetByNameCaseSensitive | presets.js:84-94 | the match is exact: "Suave" and "" give default |
| Presets.FixedPresetsWellFormed | presets.js:8-59 | every fixed preset has panAmount in [0, 1], a positive speed and a sine, square or triangle pattern |
| Presets.PatternQuarters | presets.js:73 | each pattern name is chosen by a quarter of the draw's range |
| App.ExtensionFrom | app.js:250 | the backward scan finds a match of `\.[^/.]+$` when there is one, and reports none only when no position matches |
| App.Extension | app.js:250 | where `\.[^/.]+$` matches, if anywhere |
| App.DownloadFileName | app.js:250 | the name minus its matched extension, followed by `_8D.wav`; the whole name when nothing matches |
| App.ExtensionUnique | app.js:250 | the regular expression matches at one position at most |
| App.DownloadFileNameShape | app.js:250 | the file name is always a prefix of the name, cut at a match or not at all, followed by `_8D.wav` |
| App.SongExample | app.js:250 | `song.mp3` becomes `song_8D.wav` |
| App.TarGzExample | app.js:250 | only the last extension goes: `a.tar.gz` becomes `a.tar_8D.wav` |
| App.NoDotExample | app.js:250 | a name without a dot is kept whole |
| App.TrailingDotExample | app.js:250 | a trailing bare dot is kept: `end.` becomes `end._8D.wav` |
| App.DotfileExample | app.js:250 | a dotfile loses its whole name: `.bashrc` becomes `_8D.wav` |
| App.SlashExample | app.js:250 | a dot before a '/' does not start an extension |
| App.ExtensionIs | app.js:250 | a match at p cuts the name at p |
| App.NoExtension | app.js:250 | with no match the name is kept whole |
| App.ButtonStates | app.js:49-53 | pause is disabled whenever process is, pause is enabled only with a file while processing, and download is enabled exactly with a blob |
| App.ButtonRules | app.js:49-53 | process is disabled iff no file; pause iff no file or not started; download iff no blob; a disabled process button implies a disabled pause button |
| App.Toggled | app.js:155-170 | the toggle keeps the session and its promise, never moves the playback position, changes nothing when idle or without a context, and otherwise flips isPaused |
| App.ToggleTwice | app.js:155-170 | two toggles from playing return to playing, keep the promise, and exclude the time between them from the position |
| App.ToggleIdle | app.js:155-158 | before playback starts the toggle does nothing |
| App.Page.constructor | app.js:39-43 | no file, no blob, no status and no download yet |
| App.Page.UpdateButtonStates | app.js:49-53 | the button flags become `ButtonStates` of the current file, processor and blob |
| App.Page.TogglePause | app.js:155-170 | only the processor's transport fields change, and they become `Toggled` of the old ones; the label reads "Pausar" after resuming and "Continuar" after pausing, and is untouched when not started |
| App.Page.DownloadProcessedAudio | app.js:242-261 | without a blob only the error message is shown and no download starts; with a blob but no selected file, which a reset during a background export leaves, `selectedFile.name` throws and neither the downloads nor the status change; otherwise a single download named by `DownloadFileName` starts and success is shown |

## Left out

- Web Audio and Tone.js nodes: `setupAudioNodes` and the effect chain are summarised by the flag `nodesConnected`. The reverb, delay and bass-boost options are carried but not interpreted.
- File loading and context creation (`loadAudioFile`, `initAudioContext`, FileReader, `decodeAudioData`): only their successful end is modelled, as `Loaded`.
- Asynchronous delivery: `setInterval`, Promise settlement, `onended` and the background `setTimeout` export are explicit methods (`PanTick`, `OnEnded`) that a caller invokes. The model does not capture that a stopped source's `onended` may arrive after a new session started, nor that such a stale handler resolves its own old promise.
- Panning.PanValue: `Math.sin` is the parameter `sine`, and arithmetic is on exact reals rather than IEEE doubles.
- Transport.AudioProcessor.ExportAudio: `startRendering` is not modelled. The rendered buffer is a parameter with the loaded buffer's length and rate and two channels, so its samples, and the effect of the assigned pan values on them, are not stated. `onProgress` is assumed to be a function.
- Transport.AudioProcessor.ProcessAudio: a context without a decoded buffer is treated like one with a buffer; the source starts a source node whose buffer is null, and what the audio system does with it is not modelled.
- Wav.Interleave: requires channels of equal length, which every AudioBuffer has. Unequal lengths, which read `undefined` into a Float32Array as NaN, are not modelled.
- Wav.EncodeWav: samples are exact reals, not float32 values. Every bit depth other than 16 gives `UnsupportedBitDepth`. A negative depth can make the ArrayBuffer constructor or a DataView setter raise a RangeError before the depth test; the model gives `UnsupportedBitDepth`.
- Wav.AudioBufferToWav: built on the intended encoder `Wav.EncodeWav` of the Findings row. As written, every decoded buffer has at least one frame, so the encoder throws the const-offset TypeError (`Wav.BufferWavAsWrittenRejects`).
- Transport.AudioProcessor.ExportAudio: built on the intended encoder `Wav.EncodeWav` of the Findings row. As written, every export rejects with the const-offset TypeError, so the page never receives a blob to download.
- Presets.GenerateRandom: the bounds are on exact reals. Double rounding at the upper ends, such as `0.89 + 0.1`, is not modelled.
- The visualizer, DOM lookups, event listeners, status-message timers, `applySettings` text formatting, `updateProgress` rounding and the copy button are not part of this model.
- `getAnalyser` returns a node and decides nothing, so it is not modelled.

## Findings

| source | as written | input that shows it | evidently intended | confidence | as-written member | corrected member |
|---|---|---|---|---|---|---|
| audio-processor.js:454-456 | `offset` is declared `const`, and the loop update `offset += 2` throws a TypeError after the first sample is written, so `encodeWAV` fails for every non-empty sample list | one sample of silence, `[0.0]`, at 16 bits, 44100 Hz, 2 channels | `offset` advances by 2 per sample, so sample i is written at byte 44 + 2i and the file has 44 + 2n bytes (46 here) | high; not executed | Wav.EncodeWavAsWritten | Wav.EncodeWav |
