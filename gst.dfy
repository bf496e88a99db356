/** The GStreamer bridge: a table from codec name to pipeline description,
    a process-wide registry of pipelines keyed by integer id, and the relay
    the engine calls once per encoded buffer. The relay looks the pipeline
    up, decodes and plays Opus buffers locally, forwards every buffer to the
    pipeline's sample channel and frees the buffer.

    The native engine, the Opus decoder, the ALSA device and the channels
    are foreign: each is a small class or a parameter that records what it
    was asked to do. Create and relay are atomic; the registry lock is not
    modelled. */
module Gst {
  import opened GoTypes

  const VideoClockRate: nat := 90000
  const AudioClockRate: nat := 48000

  /** The codec names of the webrtc library. */
  const VP8: string := "VP8"
  const VP9: string := "VP9"
  const H264: string := "H264"
  const Opus: string := "opus"

  /** The last element of every description; the engine finds its output by
      this name. */
  const AppSink: string := "appsink name=appsink"

  // ---------------------------------------------------------------------
  // The codec table

  predicate StartsWith(s: string, prefix: string)
  {
    prefix <= s
  }

  predicate EndsWith(s: string, suffix: string)
  {
    |suffix| <= |s| && s[|s| - |suffix|..] == suffix
  }

  predicate OccursAt(s: string, t: string, i: int)
  {
    0 <= i && i + |t| <= |s| && s[i..i + |t|] == t
  }

  predicate Contains(s: string, t: string)
  {
    exists i :: 0 <= i <= |s| - |t| && OccursAt(s, t, i)
  }

  /** A prefix of the first part of a concatenation is a prefix of it. */
  lemma PrefixOfConcat(p: string, a: string, b: string)
    requires p <= a
    ensures p <= a + b
  {
    assert (a + b)[..|a|] == a;
  }

  /** The source stage every video description starts with. */
  const VideoSource: string := "videotestsrc" + " ! "
  /** The source stage the audio description starts with. */
  const AudioSource: string := "audiotestsrc" + " ! "
  /** The raw-video caps the H.264 pipeline puts in front of its encoder. */
  const I420Caps: string := "video/x-raw,format=I420 ! "
  /** The H.264 encoder's settings and the caps it produces. */
  const X264Settings: string := " bframes=0 speed-preset=veryfast key-int-max=60 ! video/x-h264,stream-format=byte-stream ! "

  /** The switch in CreatePipeline: the stages that go in front of the sink
      for a codec, or None for a codec it does not handle (where the source
      panics). The strings are the source's, split where a stage begins so
      that each stage has a name. */
  function SourceAndEncoder(codecName: string): Option<string>
  {
    if codecName == VP8 then Some(VideoSource + "vp8enc" + " ! ")
    else if codecName == VP9 then Some(VideoSource + "vp9enc" + " ! ")
    else if codecName == H264 then Some(VideoSource + I420Caps + "x264enc" + X264Settings)
    else if codecName == Opus then Some(AudioSource + "opusenc" + " ! ")
    else None
  }

  /** The description string CreatePipeline hands to the engine: exactly
      the four codec names have one, and every one ends in the sink. */
  function PipelineDescription(codecName: string): (r: Option<string>)
    ensures r.Some? <==> codecName == VP8 || codecName == VP9 || codecName == H264 || codecName == Opus
    ensures r.Some? ==> EndsWith(r.value, AppSink)
  {
    match SourceAndEncoder(codecName)
    case None => None
    case Some(stages) =>
      assert (stages + AppSink)[|stages|..] == AppSink;
      Some(stages + AppSink)
  }

  /** `front + t` leading `s` puts `t` at position |front| of `s`. */
  lemma OccursAfter(s: string, front: string, t: string)
    requires front + t <= s
    ensures OccursAt(s, t, |front|)
    ensures Contains(s, t)
  {
    assert s[|front|..|front| + |t|] == (front + t)[|front|..];
    assert 0 <= |front| <= |s| - |t| && OccursAt(s, t, |front|);
  }

  /** Each codec's description contains that codec's encoder. */
  lemma DescriptionEncoders()
    ensures Contains(PipelineDescription(VP8).value, "vp8enc")
    ensures Contains(PipelineDescription(VP9).value, "vp9enc")
    ensures Contains(PipelineDescription(H264).value, "x264enc")
    ensures Contains(PipelineDescription(Opus).value, "opusenc")
  {
    EncoderStage(VideoSource, "vp8enc", " ! ");
    EncoderStage(VideoSource, "vp9enc", " ! ");
    EncoderStage(VideoSource + I420Caps, "x264enc", X264Settings);
    EncoderStage(AudioSource, "opusenc", " ! ");
  }

  lemma EncoderStage(front: string, encoder: string, back: string)
    ensures Contains(front + encoder + back + AppSink, encoder)
  {
    PrefixOfConcat(front + encoder, front + encoder, back);
    PrefixOfConcat(front + encoder, front + encoder + back, AppSink);
    OccursAfter(front + encoder + back + AppSink, front, encoder);
  }

  /** The audio codec reads a synthetic audio source, the video codecs a
      synthetic video source. */
  lemma DescriptionSources()
    ensures StartsWith(PipelineDescription(Opus).value, "audiotestsrc")
    ensures StartsWith(PipelineDescription(VP8).value, "videotestsrc")
    ensures StartsWith(PipelineDescription(VP9).value, "videotestsrc")
    ensures StartsWith(PipelineDescription(H264).value, "videotestsrc")
  {
    SourceStage("audiotestsrc", "opusenc" + " ! ");
    SourceStage("videotestsrc", "vp8enc" + " ! ");
    SourceStage("videotestsrc", "vp9enc" + " ! ");
    assert VideoSource + I420Caps + "x264enc" + X264Settings == VideoSource + (I420Caps + "x264enc" + X264Settings);
    SourceStage("videotestsrc", I420Caps + "x264enc" + X264Settings);
  }

  lemma SourceStage(source: string, rest: string)
    ensures StartsWith(source + " ! " + rest + AppSink, source)
  {
    PrefixOfConcat(source, source, " ! ");
    PrefixOfConcat(source, source + " ! ", rest);
    PrefixOfConcat(source, source + " ! " + rest, AppSink);
  }

  // ---------------------------------------------------------------------
  // Foreign collaborators

  /** The engine's handle on a native pipeline it built; opaque. */
  datatype NativeHandle = NativeHandle(serial: nat)

  /** webrtc.RTCSample: an encoded payload and how many samples it spans. */
  datatype Sample = Sample(data: seq<Uint8>, samples: nat)

  /** The sending side of a pipeline's `chan<- webrtc.RTCSample`, as the
      samples sent on it, oldest first. */
  class SampleChannel {
    var sent: seq<Sample>

    constructor ()
      ensures sent == []
    {
      sent := [];
    }

    method Send(s: Sample)
      modifies this
      ensures sent == old(sent) + [s]
    {
      sent := sent + [s];
    }
  }

  /** The native media engine, as the descriptions it was asked to build. */
  class Engine {
    var built: seq<string>

    constructor ()
      ensures built == []
    {
      built := [];
    }

    /** `C.gstreamer_send_create_pipeline`. */
    method CreateNativePipeline(description: string) returns (h: NativeHandle)
      modifies this
      ensures built == old(built) + [description]
      ensures h == NativeHandle(|old(built)|)
    {
      h := NativeHandle(|built|);
      built := built + [description];
    }
  }

  /** The package's ALSA playback device, as the PCM frames written to it. */
  class PlaybackDevice {
    var written: seq<seq<Int16>>

    constructor ()
      ensures written == []
    {
      written := [];
    }

    /** `player.Write(pcm)`. */
    method Write(pcm: seq<Int16>)
      modifies this
      ensures written == old(written) + [pcm]
    {
      written := written + [pcm];
    }
  }

  /** A buffer the engine hands to the relay (its bytes and length), and how
      often it has been freed. */
  class RawBuffer {
    const bytes: seq<Uint8>
    var frees: nat

    constructor (bytes: seq<Uint8>)
      ensures this.bytes == bytes && frees == 0
    {
      this.bytes := bytes;
      frees := 0;
    }

    /** `C.free(buffer)`. */
    method Free()
      modifies this
      ensures frees == old(frees) + 1
    {
      frees := frees + 1;
    }
  }

  /** opusdec: what decoding one Opus payload writes into the PCM buffer, or
      None when Decode returns an error. */
  datatype OpusDecoder = OpusDecoder(decode: seq<Uint8> -> Option<seq<Int16>>)

  /** The length of the relay's PCM buffer: 20 ms at 48 kHz. */
  const FrameSize: nat := 960

  /** `pcm := make([]int16, 960)` after the decoder wrote its samples into
      it: they lead, the rest stays zero, and a decoder that produced more
      than fits has only its first 960 kept. */
  function PcmFrame(decoded: seq<Int16>): (pcm: seq<Int16>)
    ensures |pcm| == FrameSize
    ensures |decoded| <= FrameSize ==> pcm[..|decoded|] == decoded
    ensures |decoded| > FrameSize ==> pcm == decoded[..FrameSize]
    ensures forall i :: |decoded| <= i < FrameSize ==> pcm[i] == 0
  {
    seq(FrameSize, i requires 0 <= i < FrameSize => if i < |decoded| then decoded[i] else 0)
  }

  /** How many samples a buffer of `duration` nanoseconds spans at
      `clockRate` samples per second, in exact integer arithmetic. */
  function SampleCount(clockRate: nat, duration: nat): nat
  {
    clockRate * duration / 1_000_000_000
  }

  /** A 20 ms Opus buffer spans exactly one PCM frame. */
  lemma OpusFrameSamples()
    ensures SampleCount(AudioClockRate, 20_000_000) == FrameSize
  {
  }

  /** A longer buffer never spans fewer samples. */
  lemma SampleCountMonotone(clockRate: nat, shorter: nat, longer: nat)
    requires shorter <= longer
    ensures SampleCount(clockRate, shorter) <= SampleCount(clockRate, longer)
  {
    assert clockRate * shorter <= clockRate * longer by {
      assert clockRate * longer == clockRate * shorter + clockRate * (longer - shorter);
    }
  }

  /** The Pipeline struct. CreatePipeline fills its fields and nothing
      changes them afterwards. */
  datatype Pipeline = Pipeline(native: NativeHandle, channel: SampleChannel, id: int, codecName: string)

  /** What CreatePipeline does: return a pipeline, or panic with a message. */
  datatype CreateOutcome = Created(pipeline: Pipeline) | CreatePanicked(message: string)

  datatype PanicCause = DecoderInitFailed | DecodeFailed

  /** How a relay call ends: the buffer had no pipeline, it was forwarded,
      or the call panicked. */
  datatype RelayOutcome = Discarded | Forwarded | RelayPanicked(cause: PanicCause)

  // ---------------------------------------------------------------------
  // The registry and the relay

  /** The ids 0 .. n-1. */
  function Range(n: nat): (r: set<int>)
    ensures forall i :: i in r <==> 0 <= i < n
    ensures |r| == n
  {
    if n == 0 then {} else Range(n - 1) + {n - 1}
  }

  /** A registry map holding exactly the pipelines of `created`, the i-th
      created one under key i with id i. */
  ghost predicate Numbered(m: map<int, Pipeline>, created: seq<Pipeline>)
  {
    && m.Keys == Range(|created|)
    && forall i :: 0 <= i < |created| ==> i in m && m[i] == created[i] && created[i].id == i
  }

  /** Inserting the next pipeline under `len(pipelines)`: that key is new,
      every earlier entry stays, and the ids stay numbered in order. */
  lemma NumberedInsert(m: map<int, Pipeline>, created: seq<Pipeline>, p: Pipeline)
    requires Numbered(m, created)
    requires p.id == |m|
    ensures |m| == |created|
    ensures |m| !in m
    ensures Numbered(m[|m| := p], created + [p])
  {
    var n := |created|;
    assert |m| == |m.Keys| == |Range(n)| == n;
    var m', created' := m[n := p], created + [p];
    assert m'.Keys == Range(n) + {n} == Range(n + 1);
    forall i | 0 <= i < n + 1
      ensures i in m' && m'[i] == created'[i] && created'[i].id == i
    {
      if i < n {
        assert created'[i] == created[i] && m'[i] == m[i];
      }
    }
  }

  /** The package's `pipelines` map. */
  class Registry {
    var pipelines: map<int, Pipeline>
    /** Every pipeline created so far, in creation order. */
    ghost var created: seq<Pipeline>

    /** The ids are 0, 1, 2, … in creation order, each pipeline is stored
        under its own id, and nothing has been removed. */
    ghost predicate Valid()
      reads this
    {
      Numbered(pipelines, created)
    }

    constructor ()
      ensures Valid()
      ensures pipelines == map[] && created == []
    {
      pipelines := map[];
      created := [];
    }

    /** CreatePipeline: an unhandled codec panics before the registry or the
        engine is touched. Otherwise the engine builds the description, the
        new pipeline gets id `len(pipelines)` and is stored under it, and
        every earlier entry stays as it was. */
    method CreatePipeline(codecName: string, channel: SampleChannel, engine: Engine) returns (outcome: CreateOutcome)
      requires Valid()
      modifies this, engine
      ensures Valid()
      ensures PipelineDescription(codecName).None? ==>
        && outcome == CreatePanicked("Unhandled codec " + codecName)
        && pipelines == old(pipelines) && created == old(created)
        && engine.built == old(engine.built)
      ensures PipelineDescription(codecName).Some? ==>
        && outcome == Created(Pipeline(NativeHandle(|old(engine.built)|), channel, old(|pipelines|), codecName))
        && old(|pipelines|) !in old(pipelines)
        && pipelines == old(pipelines)[old(|pipelines|) := outcome.pipeline]
        && (forall id :: id in old(pipelines) ==> id in pipelines && pipelines[id] == old(pipelines)[id])
        && created == old(created) + [outcome.pipeline]
        && engine.built == old(engine.built) + [PipelineDescription(codecName).value]
    {
      var description := PipelineDescription(codecName);
      if description.None? {
        return CreatePanicked("Unhandled codec " + codecName);
      }
      ghost var builtBefore := engine.built;
      var native := engine.CreateNativePipeline(description.value);
      assert engine.built == builtBefore + [description.value];
      var pipeline := Pipeline(native, channel, |pipelines|, codecName);
      NumberedInsert(pipelines, created, pipeline);
      pipelines := pipelines[pipeline.id := pipeline];
      created := created + [pipeline];
      outcome := Created(pipeline);
    }

    /** The channel a relay for this id may send on: that pipeline's own. */
    function ChannelFor(pipelineId: int): set<SampleChannel>
      reads this
    {
      if pipelineId in pipelines then {pipelines[pipelineId].channel} else {}
    }

    /** goHandlePipelineBuffer. `newDecoder` is the result of
        `opusdec.NewDecoder`, called before the lookup; None is its failure.
        - Decoder construction fails: panic, nothing done, buffer not freed.
        - Unknown id: nothing sent, nothing played, buffer freed once.
        - Video pipeline: one sample with the raw bytes, counted at 90000 Hz,
          on the pipeline's channel; nothing played; buffer freed once.
        - Opus pipeline: decode; on failure panic with nothing sent, played
          or freed; otherwise the 960-sample frame is played, then one
          sample with the raw bytes, counted at 48000 Hz, is sent on the
          pipeline's channel, and the buffer is freed once.
        The registry is never changed. */
    method HandlePipelineBuffer(buffer: RawBuffer, duration: nat, pipelineId: int,
                                player: PlaybackDevice, newDecoder: Option<OpusDecoder>)
      returns (outcome: RelayOutcome)
      modifies buffer, player, ChannelFor(pipelineId)
      ensures unchanged(this)
      ensures newDecoder.None? ==>
        && outcome == RelayPanicked(DecoderInitFailed)
        && buffer.frees == old(buffer.frees)
        && player.written == old(player.written)
        && (forall id :: id in pipelines ==> pipelines[id].channel.sent == old(pipelines[id].channel.sent))
      ensures newDecoder.Some? && pipelineId !in pipelines ==>
        && outcome == Discarded
        && buffer.frees == old(buffer.frees) + 1
        && player.written == old(player.written)
        && (forall id :: id in pipelines ==> pipelines[id].channel.sent == old(pipelines[id].channel.sent))
      ensures newDecoder.Some? && pipelineId in pipelines ==>
        var p := pipelines[pipelineId];
        && (forall id :: id in pipelines && pipelines[id].channel != p.channel ==>
              pipelines[id].channel.sent == old(pipelines[id].channel.sent))
        && if p.codecName != Opus then
             && outcome == Forwarded
             && p.channel.sent == old(p.channel.sent) + [Sample(buffer.bytes, SampleCount(VideoClockRate, duration))]
             && player.written == old(player.written)
             && buffer.frees == old(buffer.frees) + 1
           else
             match newDecoder.value.decode(buffer.bytes)
             case None =>
               && outcome == RelayPanicked(DecodeFailed)
               && p.channel.sent == old(p.channel.sent)
               && player.written == old(player.written)
               && buffer.frees == old(buffer.frees)
             case Some(decoded) =>
               && outcome == Forwarded
               && p.channel.sent == old(p.channel.sent) + [Sample(buffer.bytes, SampleCount(AudioClockRate, duration))]
               && player.written == old(player.written) + [PcmFrame(decoded)]
               && buffer.frees == old(buffer.frees) + 1
    {
      if newDecoder.None? {
        return RelayPanicked(DecoderInitFailed);
      }
      var decoder := newDecoder.value;
      if pipelineId in pipelines {
        var pipeline := pipelines[pipelineId];
        var samples: nat;
        if pipeline.codecName == Opus {
          samples := SampleCount(AudioClockRate, duration);
          var decoded := decoder.decode(buffer.bytes);
          if decoded.None? {
            return RelayPanicked(DecodeFailed);
          }
          player.Write(PcmFrame(decoded.value));
        } else {
          samples := SampleCount(VideoClockRate, duration);
        }
        pipeline.channel.Send(Sample(buffer.bytes, samples));
        outcome := Forwarded;
      } else {
        outcome := Discarded;
      }
      buffer.Free();
    }
  }

  // ---------------------------------------------------------------------
  // Scenarios

  /** Ids come out as 0, 1, 2 in call order; a create that panics on an
      unhandled codec uses no id. */
  method IdsInCallOrder() returns (ids: seq<int>)
    ensures ids == [0, 1, 2]
  {
    var registry := new Registry();
    var engine := new Engine();
    var video := new SampleChannel();
    var audio := new SampleChannel();
    assert PipelineDescription(VP8).Some? && PipelineDescription("AV1").None?;
    assert PipelineDescription(Opus).Some? && PipelineDescription(H264).Some?;
    var first := registry.CreatePipeline(VP8, video, engine);
    assert first.pipeline.id == 0 && |registry.pipelines| == 1;
    var failed := registry.CreatePipeline("AV1", video, engine);
    assert failed.CreatePanicked? && |registry.pipelines| == 1;
    var second := registry.CreatePipeline(Opus, audio, engine);
    assert second.pipeline.id == 1 && |registry.pipelines| == 2;
    var third := registry.CreatePipeline(H264, video, engine);
    assert third.pipeline.id == 2;
    ids := [first.pipeline.id, second.pipeline.id, third.pipeline.id];
  }

  /** A 20 ms Opus buffer on a fresh Opus pipeline: one frame is played and
      one 960-sample packet carrying the encoded bytes is sent. */
  method OpusRelay(payload: seq<Uint8>, decoder: OpusDecoder)
    returns (outcome: RelayOutcome, sent: seq<Sample>, played: nat, frees: nat)
    requires decoder.decode(payload).Some?
    ensures outcome == Forwarded
    ensures sent == [Sample(payload, 960)]
    ensures played == 1 && frees == 1
  {
    var registry := new Registry();
    var engine := new Engine();
    var channel := new SampleChannel();
    assert PipelineDescription(Opus).Some?;
    var created := registry.CreatePipeline(Opus, channel, engine);
    assert registry.pipelines == map[0 := Pipeline(NativeHandle(0), channel, 0, Opus)];
    var player := new PlaybackDevice();
    var buffer := new RawBuffer(payload);
    outcome := registry.HandlePipelineBuffer(buffer, 20_000_000, 0, player, Some(decoder));
    assert outcome == Forwarded;
    assert SampleCount(AudioClockRate, 20_000_000) == 960;
    assert channel.sent == [Sample(payload, 960)];
    assert |player.written| == 1 && buffer.frees == 1;
    sent, played, frees := channel.sent, |player.written|, buffer.frees;
  }

  /** A 10 ms buffer on a fresh VP8 pipeline: nothing is played and one
      900-sample packet is sent. */
  method VideoRelay(payload: seq<Uint8>, decoder: OpusDecoder)
    returns (outcome: RelayOutcome, sent: seq<Sample>, played: nat, frees: nat)
    ensures outcome == Forwarded
    ensures sent == [Sample(payload, 900)]
    ensures played == 0 && frees == 1
  {
    var registry := new Registry();
    var engine := new Engine();
    var channel := new SampleChannel();
    assert PipelineDescription(VP8).Some?;
    var created := registry.CreatePipeline(VP8, channel, engine);
    assert registry.pipelines == map[0 := Pipeline(NativeHandle(0), channel, 0, VP8)];
    var player := new PlaybackDevice();
    var buffer := new RawBuffer(payload);
    assert VP8 != Opus;
    outcome := registry.HandlePipelineBuffer(buffer, 10_000_000, 0, player, Some(decoder));
    assert outcome == Forwarded;
    assert SampleCount(VideoClockRate, 10_000_000) == 900;
    assert channel.sent == [Sample(payload, 900)];
    assert |player.written| == 0 && buffer.frees == 1;
    sent, played, frees := channel.sent, |player.written|, buffer.frees;
  }

  /** A buffer for an id no pipeline has: discarded, nothing sent or played,
      freed once. */
  method UnknownIdRelay(payload: seq<Uint8>, decoder: OpusDecoder)
    returns (outcome: RelayOutcome, sent: seq<Sample>, played: nat, frees: nat)
    ensures outcome == Discarded
    ensures sent == [] && played == 0 && frees == 1
  {
    var registry := new Registry();
    var engine := new Engine();
    var channel := new SampleChannel();
    assert PipelineDescription(Opus).Some?;
    var created := registry.CreatePipeline(Opus, channel, engine);
    assert registry.pipelines == map[0 := Pipeline(NativeHandle(0), channel, 0, Opus)];
    assert 7 !in registry.pipelines && registry.ChannelFor(7) == {};
    var player := new PlaybackDevice();
    var buffer := new RawBuffer(payload);
    outcome := registry.HandlePipelineBuffer(buffer, 20_000_000, 7, player, Some(decoder));
    assert outcome == Discarded;
    assert channel.sent == [] && |player.written| == 0 && buffer.frees == 1;
    sent, played, frees := channel.sent, |player.written|, buffer.frees;
  }
}
