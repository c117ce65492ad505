/** The text-to-speech framer: it consumes the WAV byte stream of the speech server
    chunk by chunk, reads the sample rate from the 44-byte header, cuts the audio
    into 960-byte blocks of 16-bit mono PCM, resamples each block to 8 kHz, encodes
    it in the call's codec and emits one media payload per block; at the end of the
    stream an even-length remainder is converted once more. */
module TtsFramer {
  import opened Common
  import opened Wav

  const BlockSize: nat := 960
  const TargetRate: int := 8000
  const DefaultRate: int := 24000

  /** The opaque resampler state `audioop.ratecv` threads from call to call. */
  type RateState = seq<int>

  /** The audio primitives the framer calls; `None` where the primitive raises. */
  datatype Transcoder = Transcoder(
    ratecv: (seq<byte>, int, Option<RateState>) -> Option<(seq<byte>, RateState)>,
    lin2ulaw: seq<byte> -> Option<seq<byte>>,
    lin2alaw: seq<byte> -> Option<seq<byte>>)

  /** The codec step: L16 passes PCM through, PCMA is A-law, every other name μ-law. */
  function Encode(tc: Transcoder, codec: string, pcm: seq<byte>): (r: Option<seq<byte>>)
    ensures codec == "L16" ==> r == Some(pcm)
    ensures codec != "L16" && codec == "PCMA" ==> r == tc.lin2alaw(pcm)
    ensures codec != "L16" && codec != "PCMA" ==> r == tc.lin2ulaw(pcm)
  {
    if codec == "L16" then Some(pcm)
    else if codec == "PCMA" then tc.lin2alaw(pcm)
    else tc.lin2ulaw(pcm)
  }

  /** The result of converting one block: the payload, if any, and the resampler state after it. */
  datatype Step = Step(out: Option<seq<byte>>, state: Option<RateState>)

  /** One block: resample unless the input is already 8 kHz (a resampler error drops the
      block and keeps the state), then encode (an encoder error drops the block, but the
      resampler state has already advanced). */
  function ProcessBlock(tc: Transcoder, codec: string, inRate: int, st: Option<RateState>, raw: seq<byte>): (r: Step)
    ensures inRate == TargetRate ==> r == Step(Encode(tc, codec, raw), st)
    ensures inRate != TargetRate && tc.ratecv(raw, inRate, st).None? ==> r == Step(None, st)
    ensures inRate != TargetRate && tc.ratecv(raw, inRate, st).Some? ==>
      r == Step(Encode(tc, codec, tc.ratecv(raw, inRate, st).value.0), Some(tc.ratecv(raw, inRate, st).value.1))
  {
    if inRate == TargetRate then Step(Encode(tc, codec, raw), st)
    else match tc.ratecv(raw, inRate, st)
      case None => Step(None, st)
      case Some((pcm, st')) => Step(Encode(tc, codec, pcm), Some(st'))
  }

  /** The payloads a run of blocks produces, in order, and the final resampler state. */
  datatype Run = Run(frames: seq<seq<byte>>, state: Option<RateState>)

  function TranscodeAll(tc: Transcoder, codec: string, inRate: int, st: Option<RateState>, blocks: seq<seq<byte>>): (r: Run)
    ensures |r.frames| <= |blocks|
  {
    if blocks == [] then Run([], st)
    else
      var prev := TranscodeAll(tc, codec, inRate, st, blocks[..|blocks| - 1]);
      var step := ProcessBlock(tc, codec, inRate, prev.state, blocks[|blocks| - 1]);
      Run(prev.frames + (if step.out.Some? then [step.out.value] else []), step.state)
  }

  /** Converting `a + b` is converting `a`, then converting `b` from the state `a` left. */
  lemma {:induction false} TranscodeAppend(tc: Transcoder, codec: string, inRate: int, st: Option<RateState>,
                                           a: seq<seq<byte>>, b: seq<seq<byte>>)
    ensures var ra := TranscodeAll(tc, codec, inRate, st, a);
      var rb := TranscodeAll(tc, codec, inRate, ra.state, b);
      TranscodeAll(tc, codec, inRate, st, a + b) == Run(ra.frames + rb.frames, rb.state)
    decreases |b|
  {
    if b == [] {
      assert a + b == a;
    } else {
      var b' := b[..|b| - 1];
      assert (a + b)[..|a + b| - 1] == a + b';
      assert (a + b)[|a + b| - 1] == b[|b| - 1];
      TranscodeAppend(tc, codec, inRate, st, a, b');
    }
  }

  /** An L16 call fed 8 kHz audio receives every block unchanged. */
  lemma {:induction false} PassThroughL16(tc: Transcoder, st: Option<RateState>, blocks: seq<seq<byte>>)
    ensures TranscodeAll(tc, "L16", TargetRate, st, blocks) == Run(blocks, st)
  {
    if blocks != [] {
      PassThroughL16(tc, st, blocks[..|blocks| - 1]);
    }
  }

  /** With encoders that never fail and a resampler that never fails, every block yields
      exactly one payload. */
  lemma {:induction false} NoFailureNoLoss(tc: Transcoder, codec: string, inRate: int, st: Option<RateState>,
                                           blocks: seq<seq<byte>>)
    requires forall p, r, s :: tc.ratecv(p, r, s).Some?
    requires forall p :: tc.lin2ulaw(p).Some? && tc.lin2alaw(p).Some?
    ensures |TranscodeAll(tc, codec, inRate, st, blocks).frames| == |blocks|
  {
    if blocks != [] {
      NoFailureNoLoss(tc, codec, inRate, st, blocks[..|blocks| - 1]);
      var prev := TranscodeAll(tc, codec, inRate, st, blocks[..|blocks| - 1]);
      var raw := blocks[|blocks| - 1];
      if inRate != TargetRate {
        assert tc.ratecv(raw, inRate, prev.state).Some?;
      }
      assert tc.lin2ulaw(raw).Some? && tc.lin2alaw(raw).Some?;
    }
  }

  /** The whole 960-byte blocks of `data`, front to back. */
  function Blocks(data: seq<byte>): (r: seq<seq<byte>>)
    ensures forall i :: 0 <= i < |r| ==> |r[i]| == BlockSize
    ensures |r| == |data| / BlockSize
    decreases |data|
  {
    if |data| < BlockSize then [] else [data[..BlockSize]] + Blocks(data[BlockSize..])
  }

  predicate AllBlocks(bs: seq<seq<byte>>) {
    forall i :: 0 <= i < |bs| ==> |bs[i]| == BlockSize
  }

  /** Cutting is unique: whole blocks followed by a remainder shorter than a block are
      exactly the blocks of their concatenation. */
  lemma {:induction false} BlocksOfConcat(bs: seq<seq<byte>>, rest: seq<byte>)
    requires AllBlocks(bs) && |rest| < BlockSize
    ensures Blocks(Concat(bs) + rest) == bs
    decreases |bs|
  {
    if bs == [] {
      assert Concat(bs) + rest == rest;
    } else {
      var tail := bs[1..];
      assert bs == [bs[0]] + tail;
      ConcatAppend([bs[0]], tail);
      assert Concat([bs[0]]) == Concat([]) + bs[0];
      var data := Concat(bs) + rest;
      assert data == bs[0] + (Concat(tail) + rest);
      assert data[..BlockSize] == bs[0];
      assert data[BlockSize..] == Concat(tail) + rest;
      BlocksOfConcat(tail, rest);
    }
  }

  lemma AllBlocksAppend(a: seq<seq<byte>>, b: seq<seq<byte>>)
    requires AllBlocks(a) && AllBlocks(b)
    ensures AllBlocks(a + b)
  {
    forall i | 0 <= i < |a + b| ensures |(a + b)[i]| == BlockSize {
      if i < |a| {
        assert (a + b)[i] == a[i];
      } else {
        assert (a + b)[i] == b[i - |a|];
      }
    }
  }

  /** The `while len(audio_buffer) >= BLOCK_SIZE` loop: cut `buf` into whole blocks front
      to back, convert each one, and keep the remainder. */
  method CutBlocks(tc: Transcoder, codec: string, inRate: int, st: Option<RateState>, buf: seq<byte>)
    returns (raw: seq<seq<byte>>, frames: seq<seq<byte>>, rest: seq<byte>, st': Option<RateState>)
    ensures buf == Concat(raw) + rest && |rest| < BlockSize
    ensures raw == Blocks(buf) && AllBlocks(raw)
    ensures Run(frames, st') == TranscodeAll(tc, codec, inRate, st, raw)
  {
    raw := [];
    frames := [];
    rest := buf;
    st' := st;
    while |rest| >= BlockSize
      invariant buf == Concat(raw) + rest
      invariant AllBlocks(raw)
      invariant Run(frames, st') == TranscodeAll(tc, codec, inRate, st, raw)
      decreases |rest|
    {
      var block := rest[..BlockSize];
      rest := rest[BlockSize..];
      var step := ProcessBlock(tc, codec, inRate, st', block);
      assert (raw + [block])[..|raw|] == raw;
      raw := raw + [block];
      if step.out.Some? {
        frames := frames + [step.out.value];
      }
      st' := step.state;
    }
    BlocksOfConcat(raw, rest);
  }

  /** The sample rate the header declares, or the 24 kHz fallback while it is incomplete. */
  function HeaderRate(header: seq<byte>): (r: int)
    ensures |header| >= HeaderSize ==> r == ReadLE32(header, SampleRateOffset)
    ensures |header| < HeaderSize ==> r == DefaultRate
  {
    if |header| >= HeaderSize then ReadLE32(header, SampleRateOffset) else DefaultRate
  }

  /** The state of one `_process_tts_stream_async` generator. */
  class Framer {
    const tc: Transcoder
    const codec: string
    var headerParsed: bool
    var headerBuf: seq<byte>
    var audioBuf: seq<byte>
    var inRate: int
    var state: Option<RateState>
    /** Every byte received so far, the raw blocks cut so far and the payloads emitted. */
    ghost var received: seq<byte>
    ghost var blocks: seq<seq<byte>>
    ghost var emitted: seq<seq<byte>>

    ghost predicate Valid()
      reads this
    {
      && AllBlocks(blocks)
      && TranscodeAll(tc, codec, inRate, None, blocks) == Run(emitted, state)
      && (!headerParsed ==>
            headerBuf == received && |received| < HeaderSize && audioBuf == [] && blocks == []
            && inRate == DefaultRate && state == None)
      && (headerParsed ==>
            |headerBuf| >= HeaderSize && headerBuf <= received
            && inRate == ReadLE32(headerBuf, SampleRateOffset)
            && Concat(blocks) + audioBuf == received[HeaderSize..])
    }

    constructor (tc: Transcoder, codec: string)
      ensures Valid()
      ensures this.tc == tc && this.codec == codec
      ensures !headerParsed && received == [] && emitted == [] && inRate == DefaultRate
    {
      this.tc := tc;
      this.codec := codec;
      headerParsed := false;
      headerBuf := [];
      audioBuf := [];
      inRate := DefaultRate;
      state := None;
      received := [];
      blocks := [];
      emitted := [];
    }

    /** One `async for chunk` iteration: returns the raw blocks cut and the payloads emitted. */
    method Feed(chunk: seq<byte>) returns (raw: seq<seq<byte>>, frames: seq<seq<byte>>)
      requires Valid()
      modifies this
      ensures Valid()
      ensures received == old(received) + chunk
      ensures emitted == old(emitted) + frames
      ensures blocks == old(blocks) + raw
      ensures !old(headerParsed) ==> raw == [] && frames == []
      ensures !old(headerParsed) && |old(headerBuf) + chunk| < HeaderSize ==> !headerParsed
      ensures !old(headerParsed) && |old(headerBuf) + chunk| >= HeaderSize ==>
        headerParsed && inRate == ReadLE32(old(headerBuf) + chunk, SampleRateOffset)
        && audioBuf == (old(headerBuf) + chunk)[HeaderSize..]
      ensures old(headerParsed) ==>
        && headerParsed && inRate == old(inRate)
        && old(audioBuf) + chunk == Concat(raw) + audioBuf && raw == Blocks(old(audioBuf) + chunk)
        && |audioBuf| < BlockSize
        && Run(frames, state) == TranscodeAll(tc, codec, inRate, old(state), raw)
    {
      if !headerParsed {
        FeedHeader(chunk);
        raw := [];
        frames := [];
      } else {
        raw, frames := FeedAudio(chunk);
      }
    }

    /** The header phase: collect bytes until 44 have arrived, then read the rate and
        move the rest to the audio buffer. Nothing is emitted, not even for audio that
        arrived in the completing chunk. */
    method FeedHeader(chunk: seq<byte>)
      requires Valid() && !headerParsed
      modifies this
      ensures Valid()
      ensures received == old(received) + chunk && emitted == old(emitted) && blocks == old(blocks)
      ensures |old(headerBuf) + chunk| < HeaderSize ==> !headerParsed
      ensures |old(headerBuf) + chunk| >= HeaderSize ==>
        headerParsed && inRate == ReadLE32(old(headerBuf) + chunk, SampleRateOffset)
        && audioBuf == (old(headerBuf) + chunk)[HeaderSize..]
    {
      assert TranscodeAll(tc, codec, inRate, None, []) == Run([], None);
      headerBuf := headerBuf + chunk;
      received := received + chunk;
      if |headerBuf| >= HeaderSize {
        inRate := ReadLE32(headerBuf, SampleRateOffset);
        headerParsed := true;
        audioBuf := headerBuf[HeaderSize..];
        assert TranscodeAll(tc, codec, inRate, None, blocks) == Run([], None);
      }
    }

    /** The audio phase: append the chunk and convert every whole block now buffered. */
    method FeedAudio(chunk: seq<byte>) returns (raw: seq<seq<byte>>, frames: seq<seq<byte>>)
      requires Valid() && headerParsed
      modifies this
      ensures Valid()
      ensures received == old(received) + chunk
      ensures emitted == old(emitted) + frames
      ensures blocks == old(blocks) + raw
      ensures headerParsed && inRate == old(inRate)
      ensures old(audioBuf) + chunk == Concat(raw) + audioBuf && raw == Blocks(old(audioBuf) + chunk)
      ensures |audioBuf| < BlockSize
      ensures Run(frames, state) == TranscodeAll(tc, codec, inRate, old(state), raw)
    {
      ghost var ob := blocks;
      ghost var before := received;
      assert Concat(ob) + audioBuf == before[HeaderSize..];
      var rest, st;
      raw, frames, rest, st := CutBlocks(tc, codec, inRate, state, audioBuf + chunk);
      ghost var whole := Concat(ob + raw) + rest;
      ConcatAppend(ob, raw);
      assert whole == Concat(ob) + (audioBuf + chunk);
      assert whole == (before + chunk)[HeaderSize..];
      TranscodeAppend(tc, codec, inRate, None, ob, raw);
      AllBlocksAppend(ob, raw);
      audioBuf := rest;
      state := st;
      received := before + chunk;
      blocks := ob + raw;
      emitted := emitted + frames;
    }

    /** The code after the `async for` loop: the remainder, if non-empty and of even
        length, converted once; `None` otherwise or when a primitive raises. */
    method Finish() returns (frame: Option<seq<byte>>)
      requires Valid()
      ensures |audioBuf| > 0 && |audioBuf| % 2 == 0 ==> frame == ProcessBlock(tc, codec, inRate, state, audioBuf).out
      ensures !(|audioBuf| > 0 && |audioBuf| % 2 == 0) ==> frame.None?
    {
      if |audioBuf| > 0 && |audioBuf| % 2 == 0 {
        var step := ProcessBlock(tc, codec, inRate, state, audioBuf);
        frame := step.out;
      } else {
        frame := None;
      }
    }

    /** Once the header is in, the rate is the one at offset 24 of the stream itself. */
    lemma RateFromStream()
      requires Valid() && headerParsed
      ensures |received| >= HeaderSize && inRate == ReadLE32(received, SampleRateOffset)
    {
      ReadLE32Slice(headerBuf, SampleRateOffset, headerBuf[SampleRateOffset..SampleRateOffset + 4]);
      assert received[SampleRateOffset..SampleRateOffset + 4] == headerBuf[SampleRateOffset..SampleRateOffset + 4];
      ReadLE32Slice(received, SampleRateOffset, headerBuf[SampleRateOffset..SampleRateOffset + 4]);
    }

    /** Once the remainder is shorter than a block, the blocks cut so far are the blocks
        of the audio after the header, however the stream was split into chunks, and the
        payloads are their conversion. */
    lemma ChunkingInvariant()
      requires Valid() && headerParsed && |audioBuf| < BlockSize
      ensures blocks == Blocks(received[HeaderSize..])
      ensures emitted == TranscodeAll(tc, codec, inRate, None, Blocks(received[HeaderSize..])).frames
    {
      BlocksOfConcat(blocks, audioBuf);
    }

    /** The WAV round trip: a framer fed, in any chunking, the bytes `create_wav_header`
        writes has read the header's sample rate, and holds exactly the PCM after it,
        as cut blocks and remainder; once the remainder is short of a block, the
        payloads are the conversion of the PCM's blocks from that rate. */
    lemma WavRoundTrip(pcm: seq<byte>, sampleRate: int, channels: int, bitsPerSample: int)
      requires Valid() && HeaderFits(|pcm|, sampleRate, channels, bitsPerSample)
      requires received == CreateWavHeader(pcm, sampleRate, channels, bitsPerSample).value
      ensures headerParsed && inRate == sampleRate && Concat(blocks) + audioBuf == pcm
      ensures |audioBuf| < BlockSize ==>
        blocks == Blocks(pcm) && emitted == TranscodeAll(tc, codec, sampleRate, None, Blocks(pcm)).frames
    {
      RateFromStream();
      WavStreamRate(pcm, sampleRate, channels, bitsPerSample, received);
      if |audioBuf| < BlockSize {
        ChunkingInvariant();
      }
    }
  }

  /** A speech response that starts with the header `create_wav_header` writes is
      resampled from the rate that header declares. */
  lemma WavStreamRate(pcm: seq<byte>, sampleRate: int, channels: int, bitsPerSample: int, stream: seq<byte>)
    requires HeaderFits(|pcm|, sampleRate, channels, bitsPerSample)
    requires CreateWavHeader(pcm, sampleRate, channels, bitsPerSample).value <= stream
    ensures |stream| >= HeaderSize && HeaderRate(stream) == sampleRate
  {
    var w := CreateWavHeader(pcm, sampleRate, channels, bitsPerSample).value;
    WavHeaderReadsBack(pcm, sampleRate, channels, bitsPerSample);
    assert stream[SampleRateOffset..SampleRateOffset + 4] == w[SampleRateOffset..SampleRateOffset + 4];
    ReadLE32Slice(w, SampleRateOffset, w[SampleRateOffset..SampleRateOffset + 4]);
    ReadLE32Slice(stream, SampleRateOffset, w[SampleRateOffset..SampleRateOffset + 4]);
  }
}
