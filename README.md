# gplay core, modelled in Dafny

gplay plays sound in two ways. This project models the core of each.

- **The GStreamer bridge, `gst/gst.go`.**
  - `CreatePipeline` picks a GStreamer pipeline description for a WebRTC codec name: VP8, VP9, H264 or opus. Any other name makes it panic with `Unhandled codec <name>`.
  - It asks the native engine to build that pipeline.
  - It stores the new pipeline in a package-wide map, under the id `len(pipelines)`.
  - The native side then calls `goHandlePipelineBuffer` for every encoded buffer, which:
    - creates an Opus decoder, panicking if that fails;
    - looks the pipeline up by id, and discards the buffer if the id is unknown;
    - for an Opus pipeline, decodes the buffer into a 960-sample PCM frame and plays it, panicking if decoding fails;
    - sends the raw bytes, with their sample count, on the pipeline's channel. The count is taken at 90000 Hz for video and 48000 Hz for audio;
    - frees the buffer.
- **The WAV player, `playwav/playwav.go`.**
  - `int16tobyte` turns a signed 16-bit sample into an unsigned 8-bit one.
  - `FromFile` repeatedly reads a chunk of samples from the WAV reader and truncates each sample to int16. It converts each sample to a byte and writes every non-empty chunk to the ALSA device.
  - The loop stops at end of file, returning nil, or at a read error, returning `WAV Decode:<error>`. The chunk that comes with end of file or the error is still written.

Files:

- `go_types.dfy` (module `GoTypes`): Go's `int16` and `uint8` and the wrapping conversions `int16(v)` and `uint8(v)`.
- `gst.dfy` (module `Gst`):
  - the codec table;
  - the registry, as a class with its map and an invariant that the ids are 0, 1, 2, … in creation order;
  - the relay;
  - the foreign collaborators as small recording classes: the engine, the sample channel, the playback device and the raw buffer;
  - a few concrete scenarios.
- `playwav.dfy` (module `PlayWav`):
  - `int16tobyte` and its properties;
  - the two inner conversion loops, one as a loop over a sequence and one as a loop filling a new array;
  - FromFile's read/convert/write loop, as a method over a reader class and a device class, proved against a recursive specification of the writes and of the returned error;
  - an independent second specification of the writes, with lemmas that connect the two.

Panics are modelled as outcomes (`CreatePanicked`, `RelayPanicked`). Each such outcome comes with the state as it was at the moment of the panic.

## Model

| member | source | states |
|---|---|---|
| GoTypes.ToInt16 | playwav/playwav.go:145 | Go's `int16(v)`: the result is congruent to v modulo 2^16 and equals v when v is in the int16 range |
| GoTypes.ToUint8 | playwav/playwav.go:37 | Go's `uint8(v)`: the result is congruent to v modulo 256 and equals v when v is in 0..255 |
| PlayWav.ShiftRight | playwav/playwav.go:37 | the arithmetic shift `x >> n` is floor(x / 2^n): 2^n·r ≤ x < 2^n·r + 2^n |
| PlayWav.Int16ToByte | playwav/playwav.go:35-38 | int16tobyte(x) is exactly floor(x / 256) + 128 |
| PlayWav.Int16ToByteNoOverflow | playwav/playwav.go:37 | neither the int16 addition `+ 128` nor the uint8 conversion wraps |
| PlayWav.Int16ToByteMonotone | playwav/playwav.go:35-38 | a larger sample never gives a smaller byte |
| PlayWav.Int16ToByteCorners | playwav/playwav.go:35-38 | -32768 ↦ 0, 0 ↦ 128, 32767 ↦ 255 |
| PlayWav.Int16ToByteHighByte | playwav/playwav.go:35-38 | two samples give the same byte exactly when they have the same high byte |
| PlayWav.ChunkPcm | playwav/playwav.go:143-152 | one byte per read sample, in order; the i-th is int16tobyte of the i-th sample truncated to int16 |
| PlayWav.ConvertChunk | playwav/playwav.go:143-146 | the append loop yields the read samples in order, each truncated to int16 |
| PlayWav.EncodeBytes | playwav/playwav.go:148-152 | the new byte slice has cvert's length, and byte i is int16tobyte(cvert[i]) |
| PlayWav.TerminatedTail | playwav/playwav.go:141-172 | after a read that does not stop the loop, the later reads still contain one that does |
| PlayWav.TerminalIndex | playwav/playwav.go:167-171 | the read that ends the loop: it reports EOF or an error, and every earlier read reported neither |
| PlayWav.WriteFor | playwav/playwav.go:154-164 | one read causes one device write when its chunk is non-empty, and none otherwise |
| PlayWav.WritesBeforeTail | playwav/playwav.go:141-172 | the writes of the first n+1 reads are the first read's writes followed by the writes of the next n reads |
| PlayWav.WritesAreWritesBefore | playwav/playwav.go:141-172 | the loop writes exactly the non-empty chunks of the reads up to and including the terminating one, in read order |
| PlayWav.TerminalChunkWritten | playwav/playwav.go:154-171 | a non-empty chunk returned together with EOF or an error is still written, and it is the last write |
| PlayWav.ReadsAfterTerminalIgnored | playwav/playwav.go:167-171 | whatever the reader would return after EOF or an error changes neither the writes nor the result |
| PlayWav.OutcomeOfTerminal | playwav/playwav.go:167-175 | FromFile returns nil exactly when the loop stopped at EOF; on a read error it returns `WAV Decode:` followed by the error text |
| PlayWav.WavReader.ReadSampleEvery | playwav/playwav.go:142 | returns the reader's next chunk and status and advances past them |
| PlayWav.PcmDevice.Write | playwav/playwav.go:161 | the device has received the given bytes after all earlier writes |
| PlayWav.PlayNext | playwav/playwav.go:142-164 | one pass of the loop body: consumes one read, returns its status, and writes its converted chunk when the chunk is non-empty |
| PlayWav.PlaySamples | playwav/playwav.go:141-175 | the whole loop: the device receives exactly the specified writes, the returned error is the specified outcome, and the reader stops right after the terminating read |
| Gst.PrefixOfConcat | gst/gst.go:61-67 | a prefix of the front part of a concatenation is a prefix of the whole |
| Gst.OccursAfter | gst/gst.go:61-67 | a string whose prefix is front + t contains t, at the position just after front |
| Gst.PipelineDescription | gst/gst.go:57-70 | exactly the four codec names VP8, VP9, H264 and opus have a description, and every description ends in the `appsink name=appsink` sink |
| Gst.EncoderStage | gst/gst.go:61-67 | the encoder stage occurs in a description assembled around it |
| Gst.DescriptionEncoders | gst/gst.go:60-67 | each codec's description contains that codec's encoder: vp8enc, vp9enc, x264enc or opusenc |
| Gst.SourceStage | gst/gst.go:61-67 | a description assembled from a source stage starts with that source |
| Gst.DescriptionSources | gst/gst.go:60-67 | the opus description starts with audiotestsrc, and the three video descriptions with videotestsrc |
| Gst.SampleChannel.Send | gst/gst.go:125 | the channel has carried the sample after all earlier ones |
| Gst.Engine.CreateNativePipeline | gst/gst.go:79 | the engine has been asked to build this description, and the handle names this build |
| Gst.PlaybackDevice.Write | gst/gst.go:121 | the device has received the PCM frame after all earlier ones |
| Gst.RawBuffer.Free | gst/gst.go:129 | the buffer has been freed once more |
| Gst.PcmFrame | gst/gst.go:104-116 | the 960-sample PCM buffer: the decoded samples lead and the rest stays zero; a longer decode keeps its first 960 |
| Gst.OpusFrameSamples | gst/gst.go:23-28 | a 20 ms buffer counted at the audio clock rate spans exactly one 960-sample frame |
| Gst.SampleCountMonotone | gst/gst.go:113-123 | a longer buffer never spans fewer samples |
| Gst.Range | gst/gst.go:81-85 | the set of ids 0 .. n-1, which has n members |
| Gst.NumberedInsert | gst/gst.go:78-85 | inserting under `len(pipelines)`: the key is new, every earlier entry stays, and the ids stay 0, 1, 2, … in creation order |
| Gst.Registry.constructor | gst/gst.go:53 | the registry starts empty |
| Gst.Registry.CreatePipeline | gst/gst.go:57-87 | an unhandled codec panics with `Unhandled codec <name>` and changes nothing. Otherwise exactly one pipeline is built from the description, gets id `len(pipelines)`, is stored under that previously unused key, and every earlier entry stays |
| Gst.Registry.HandlePipelineBuffer | gst/gst.go:100-130 | every branch of the relay, as listed above, with what it sends, plays and frees; no other channel and not the registry is changed |
| Gst.IdsInCallOrder | gst/gst.go:75-86 | VP8, an unhandled codec, opus, then H264 on a fresh registry get ids 0, 1, 2; the panicking call uses no id |
| Gst.OpusRelay | gst/gst.go:100-130 | a 20 ms buffer on an opus pipeline plays one frame, sends one 960-sample packet with the raw bytes, and frees the buffer once |
| Gst.VideoRelay | gst/gst.go:100-130 | a 10 ms buffer on a VP8 pipeline plays nothing, sends one 900-sample packet, and frees the buffer once |
| Gst.UnknownIdRelay | gst/gst.go:110-129 | a buffer for an unknown id is discarded: nothing sent or played, freed once |

## Left out

- cgo and GStreamer itself: the native engine is the recording class `Engine`, and its handle is opaque. `C.CString` and the deferred `C.free` of the description string are not modelled (gst/gst.go:72-73).
- `Pipeline.Start` and `Pipeline.Stop` (gst/gst.go:90-97) only forward to the native engine. They are left out.
- Package initialisation (gst/gst.go:33-43) and `cleanup` (gst/gst.go:132-138) are left out. These cover opening the ALSA device, signal handling, the main loop and closing devices on Ctrl-C.
- `pipelinesLock`: each create and each relay is modelled as one atomic step. Interleavings are not modelled.
- Channel sends never block in the model. A full channel in the source would stall the relay while it holds the lock.
- Gst.Registry.HandlePipelineBuffer:
  - the source computes the sample count as `uint32(rate * (float32(duration) / 1e9))` in float32;
  - the model uses the exact integer `rate * duration / 1e9`, with a non-negative duration;
  - float rounding, negative durations and the uint32 conversion are not modelled.
- Gst.Registry.HandlePipelineBuffer: the Opus decoder is a parameter: its construction result, and a function from the payload to the decoded samples or a failure. Its internals and the decoded byte count (discarded by the source) are not modelled.
- `fmt.Println` and `fmt.Printf` diagnostics are left out. These are the PCM dump and the "discarding buffer" message.
- The webrtc constants `webrtc.VP8`, `webrtc.VP9`, `webrtc.H264` and `webrtc.Opus` belong to a library that is not part of this model. They are taken to be "VP8", "VP9", "H264" and "opus".
- The C buffer pointer and `bufferLen` are one byte sequence, `RawBuffer.bytes`.
- FromFile's set-up (playwav/playwav.go:40-114) is left out: opening and stat-ing the file, building the WAV reader, and opening and negotiating the ALSA card and device. Its early error returns and panics are left out with it.
- PlayWav.PlaySamples:
  - a failing `device.Write`, which panics in the source, is not modelled; every write succeeds;
  - the negotiated period size passed to `device.Write` is not modelled;
  - the `wavinfo` result is always the empty string and is not represented.
- PlayWav.PlaySamples requires that the reader eventually reports end of file or an error. The source loops forever on a reader that does neither.
- The WAV reader's decoding is the sequence of results it would return. The sample values are unbounded integers, and `int16(b)` truncates them.
