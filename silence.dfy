/** Generated silence: the 20 ms chunks the gateway sends to open the audio path and
    to hold a requested delay before the first spoken audio. */
module Silence {
  import opened Common

  const SampleRate: nat := 8000
  /** The silence burst the sender plays first, in milliseconds. */
  const BurstMs: nat := 500
  const ChunkMs: nat := 20

  /** Bytes per sample: two for 16-bit L16, one for the 8-bit companded codecs. */
  function BytesPerSample(codec: string): (n: nat)
    ensures n == 1 || n == 2
  {
    if codec == "L16" then 2 else 1
  }

  /** The codec's silence byte: zero PCM for L16, 0xFF in μ-law, 0xD5 otherwise (A-law). */
  function FillByte(codec: string): (b: byte)
    ensures codec == "L16" ==> b == 0x00
    ensures codec != "L16" && codec == "PCMU" ==> b == 0xFF
    ensures codec != "L16" && codec != "PCMU" ==> b == 0xD5
  {
    if codec == "L16" then 0x00 else if codec == "PCMU" then 0xFF else 0xD5
  }

  /** Bytes in `ms` milliseconds of 8 kHz audio in the codec. */
  function TotalBytes(ms: int, codec: string): int {
    ms * (SampleRate / 1000) * BytesPerSample(codec)
  }

  /** One chunk is exactly 20 ms: 160 bytes, or 320 for L16. */
  function ChunkSize(codec: string): (n: nat)
    ensures n == TotalBytes(ChunkMs, codec)
    ensures codec == "L16" ==> n == 320
    ensures codec != "L16" ==> n == 160
  {
    ChunkMs * (SampleRate / 1000) * BytesPerSample(codec)
  }

  function SilenceChunk(codec: string): (c: seq<byte>)
    ensures |c| == ChunkSize(codec)
    ensures forall i :: 0 <= i < |c| ==> c[i] == FillByte(codec)
  {
    Repeat(FillByte(codec), ChunkSize(codec))
  }

  /** `total_bytes // CHUNK_SIZE` whole chunks, none when the duration is not positive. */
  function ChunkCount(ms: int, codec: string): (n: nat)
    ensures n * ChunkSize(codec) <= if TotalBytes(ms, codec) < 0 then 0 else TotalBytes(ms, codec)
    ensures TotalBytes(ms, codec) > 0 ==> TotalBytes(ms, codec) < (n + 1) * ChunkSize(codec)
  {
    var t := TotalBytes(ms, codec);
    if t <= 0 then 0 else t / ChunkSize(codec)
  }

  /** `generate_silence(duration, codec)`, with the duration in milliseconds. */
  method GenerateSilence(ms: int, codec: string) returns (chunks: seq<seq<byte>>)
    ensures chunks == Repeat(SilenceChunk(codec), ChunkCount(ms, codec))
  {
    chunks := [];
    var n := ChunkCount(ms, codec);
    var silence := SilenceChunk(codec);
    for k := 0 to n
      invariant chunks == Repeat(silence, k)
    {
      chunks := chunks + [silence];
    }
  }

  /** Whole chunks are emitted only: the audio is `ms` rounded down to a 20 ms boundary. */
  lemma ChunkCountMs(ms: nat, codec: string)
    ensures ChunkCount(ms, codec) == ms / ChunkMs
  {
    var b := BytesPerSample(codec);
    var t := TotalBytes(ms, codec);
    assert t == ms * 8 * b;
    assert ChunkSize(codec) == 160 * b;
    if ms > 0 {
      var q := ms / 20;
      var r := ms % 20;
      assert ms == 20 * q + r;
      assert t == 160 * b * q + 8 * b * r;
      assert 0 <= 8 * b * r < 160 * b;
    }
  }

  /** The number of silence frames the sender emits before any spoken audio: the
      500 ms burst, plus `int(delay_ms / 20)` chunks of 20 ms when a delay is asked for. */
  function SenderSilenceCount(delayMs: int): (n: nat)
    ensures delayMs <= 0 ==> n * ChunkMs == BurstMs
    ensures delayMs > 0 ==> delayMs + BurstMs - ChunkMs < n * ChunkMs <= delayMs + BurstMs
  {
    BurstMs / ChunkMs + (if delayMs > 0 then delayMs / ChunkMs else 0)
  }

  /** The silence frames of `send_initial_sequence`; each carries the call's
      `stream_id` member, `null` when the stream id is unknown. */
  method SenderSilence(codec: string, streamId: Option<string>, delayMs: int) returns (frames: seq<MediaFrame>)
    ensures frames == Repeat(MediaFrame(SilenceChunk(codec), FieldOf(streamId)), SenderSilenceCount(delayMs))
  {
    var frame := MediaFrame(SilenceChunk(codec), FieldOf(streamId));
    frames := [];
    var burst := GenerateSilence(BurstMs, codec);
    ChunkCountMs(BurstMs, codec);
    for k := 0 to |burst|
      invariant frames == Repeat(frame, k)
    {
      frames := frames + [MediaFrame(burst[k], FieldOf(streamId))];
    }
    if delayMs > 0 {
      var extra := delayMs / ChunkMs;
      for j := 0 to extra
        invariant frames == Repeat(frame, BurstMs / ChunkMs + j)
      {
        var one := GenerateSilence(ChunkMs, codec);
        ChunkCountMs(ChunkMs, codec);
        for k := 0 to |one|
          invariant frames == Repeat(frame, BurstMs / ChunkMs + j + k)
        {
          frames := frames + [MediaFrame(one[k], FieldOf(streamId))];
        }
      }
    }
  }
}
