/** The RIFF/WAVE header that wraps one captured utterance before it is sent to
    speech-to-text, and the little-endian field readers the TTS framer uses to
    find the sample rate of an incoming WAV stream. */
module Wav {
  import opened Common

  const HeaderSize: nat := 44
  const SampleRateOffset: nat := 24

  predicate IsU16(v: int) { 0 <= v < 0x1_0000 }
  predicate IsU32(v: int) { 0 <= v < 0x1_0000_0000 }

  /** `struct.pack('<H', v)`. */
  function LE16(v: int): (r: seq<byte>)
    requires IsU16(v)
    ensures |r| == 2
  {
    [(v % 256) as byte, (v / 256) as byte]
  }

  /** `struct.pack('<I', v)`. */
  function LE32(v: int): (r: seq<byte>)
    requires IsU32(v)
    ensures |r| == 4
  {
    [(v % 256) as byte, (v / 256 % 256) as byte, (v / 65536 % 256) as byte, (v / 16777216) as byte]
  }

  /** `struct.unpack('<H', b[off:off+2])[0]`. */
  function ReadLE16(b: seq<byte>, off: nat): (v: int)
    requires off + 2 <= |b|
    ensures IsU16(v)
  {
    b[off] as int + 256 * b[off + 1] as int
  }

  /** `struct.unpack('<I', b[off:off+4])[0]`. */
  function ReadLE32(b: seq<byte>, off: nat): (v: int)
    requires off + 4 <= |b|
    ensures IsU32(v)
  {
    b[off] as int + 256 * b[off + 1] as int + 65536 * b[off + 2] as int + 16777216 * b[off + 3] as int
  }

  lemma ReadLE16OfLE16(v: int)
    requires IsU16(v)
    ensures ReadLE16(LE16(v), 0) == v
  {
    var b := LE16(v);
    assert b[0] as int == v % 256 && b[1] as int == v / 256;
  }

  lemma ReadLE32OfLE32(v: int)
    requires IsU32(v)
    ensures ReadLE32(LE32(v), 0) == v
  {
    var b := LE32(v);
    var q1 := v / 256;
    var q2 := q1 / 256;
    assert v / 256 % 256 == q1 % 256;
    assert v / 65536 == q2;
    assert v / 16777216 == q2 / 256;
    assert v == v % 256 + 256 * q1;
    assert q1 == q1 % 256 + 256 * q2;
    assert q2 == q2 % 256 + 256 * (q2 / 256);
  }

  /** Reading a field does not depend on the bytes around it. */
  lemma ReadLE32Slice(b: seq<byte>, off: nat, c: seq<byte>)
    requires |c| == 4 && off + 4 <= |b| && b[off..off + 4] == c
    ensures ReadLE32(b, off) == ReadLE32(c, 0)
  {
    assert b[off] == c[0] && b[off + 1] == c[1] && b[off + 2] == c[2] && b[off + 3] == c[3];
  }

  lemma ReadLE16Slice(b: seq<byte>, off: nat, c: seq<byte>)
    requires |c| == 2 && off + 2 <= |b| && b[off..off + 2] == c
    ensures ReadLE16(b, off) == ReadLE16(c, 0)
  {
    assert b[off] == c[0] && b[off + 1] == c[1];
  }

  /** The bytes of an ASCII tag such as `b'RIFF'`. */
  function Ascii(s: string): (r: seq<byte>)
    requires forall i :: 0 <= i < |s| ==> s[i] as int < 128
    ensures |r| == |s|
    ensures forall i :: 0 <= i < |s| ==> r[i] as int == s[i] as int
  {
    if s == [] then [] else [s[0] as int as byte] + Ascii(s[1..])
  }

  /** Every `struct.pack` call of the header receives a value its field can hold;
      otherwise Python raises `struct.error`. */
  predicate HeaderFits(dataLen: nat, sampleRate: int, channels: int, bitsPerSample: int) {
    IsU32(36 + dataLen) && IsU16(channels) && IsU32(sampleRate)
    && IsU32(sampleRate * channels * (bitsPerSample / 8))
    && IsU16(channels * (bitsPerSample / 8)) && IsU16(bitsPerSample)
  }

  /** The RIFF chunk descriptor: tag, chunk size, format tag and `fmt ` sub-chunk tag. */
  function RiffPart(size: int): (r: seq<byte>)
    requires IsU32(size)
    ensures |r| == 16
  {
    Ascii("RIFF") + LE32(size) + Ascii("WAVEfmt ")
  }

  /** The body of the `fmt ` sub-chunk for uncompressed PCM. */
  function FmtPart(channels: int, sampleRate: int, byteRate: int, align: int, bitsPerSample: int): (r: seq<byte>)
    requires IsU16(channels) && IsU32(sampleRate) && IsU32(byteRate) && IsU16(align) && IsU16(bitsPerSample)
    ensures |r| == 20
  {
    LE32(16) + LE16(1) + LE16(channels) + LE32(sampleRate) + LE32(byteRate) + LE16(align) + LE16(bitsPerSample)
  }

  /** The `data` sub-chunk header. */
  function DataPart(dataLen: int): (r: seq<byte>)
    requires IsU32(dataLen)
    ensures |r| == 8
  {
    Ascii("data") + LE32(dataLen)
  }

  /** `create_wav_header(pcm_data, sample_rate, channels, bits_per_sample)`: a 44-byte
      PCM header followed by the data; `None` where a field overflows. */
  function CreateWavHeader(pcm: seq<byte>, sampleRate: int, channels: int, bitsPerSample: int): (r: Option<seq<byte>>)
    ensures r.Some? <==> HeaderFits(|pcm|, sampleRate, channels, bitsPerSample)
    ensures r.Some? ==> |r.value| == HeaderSize + |pcm| && r.value[HeaderSize..] == pcm
  {
    if !HeaderFits(|pcm|, sampleRate, channels, bitsPerSample) then None
    else
      var byteRate := sampleRate * channels * (bitsPerSample / 8);
      var align := channels * (bitsPerSample / 8);
      Some(RiffPart(36 + |pcm|) + (FmtPart(channels, sampleRate, byteRate, align, bitsPerSample) + (DataPart(|pcm|) + pcm)))
  }

  lemma RiffPartReadsBack(size: int)
    requires IsU32(size)
    ensures var p := RiffPart(size);
      p[0..4] == Ascii("RIFF") && ReadLE32(p, 4) == size && p[8..16] == Ascii("WAVEfmt ")
  {
    var p := RiffPart(size);
    assert p[4..8] == LE32(size);
    ReadLE32Slice(p, 4, LE32(size));
    ReadLE32OfLE32(size);
  }

  lemma FmtPartReadsBack(channels: int, sampleRate: int, byteRate: int, align: int, bitsPerSample: int)
    requires IsU16(channels) && IsU32(sampleRate) && IsU32(byteRate) && IsU16(align) && IsU16(bitsPerSample)
    ensures var p := FmtPart(channels, sampleRate, byteRate, align, bitsPerSample);
      && ReadLE32(p, 0) == 16 && ReadLE16(p, 4) == 1 && ReadLE16(p, 6) == channels
      && ReadLE32(p, 8) == sampleRate && ReadLE32(p, 12) == byteRate
      && ReadLE16(p, 16) == align && ReadLE16(p, 18) == bitsPerSample
  {
    var p := FmtPart(channels, sampleRate, byteRate, align, bitsPerSample);
    assert p[0..4] == LE32(16);
    ReadLE32Slice(p, 0, LE32(16));
    ReadLE32OfLE32(16);
    assert p[4..6] == LE16(1);
    ReadLE16Slice(p, 4, LE16(1));
    ReadLE16OfLE16(1);
    assert p[6..8] == LE16(channels);
    ReadLE16Slice(p, 6, LE16(channels));
    ReadLE16OfLE16(channels);
    assert p[8..12] == LE32(sampleRate);
    ReadLE32Slice(p, 8, LE32(sampleRate));
    ReadLE32OfLE32(sampleRate);
    assert p[12..16] == LE32(byteRate);
    ReadLE32Slice(p, 12, LE32(byteRate));
    ReadLE32OfLE32(byteRate);
    assert p[16..18] == LE16(align);
    ReadLE16Slice(p, 16, LE16(align));
    ReadLE16OfLE16(align);
    assert p[18..20] == LE16(bitsPerSample);
    ReadLE16Slice(p, 18, LE16(bitsPerSample));
    ReadLE16OfLE16(bitsPerSample);
  }

  lemma DataPartReadsBack(dataLen: int)
    requires IsU32(dataLen)
    ensures var p := DataPart(dataLen); p[0..4] == Ascii("data") && ReadLE32(p, 4) == dataLen
  {
    var p := DataPart(dataLen);
    assert p[4..8] == LE32(dataLen);
    ReadLE32Slice(p, 4, LE32(dataLen));
    ReadLE32OfLE32(dataLen);
  }

  lemma ReadLE32Prefix(x: seq<byte>, y: seq<byte>, off: nat)
    requires off + 4 <= |x|
    ensures ReadLE32(x + y, off) == ReadLE32(x, off)
  {
    assert (x + y)[off..off + 4] == x[off..off + 4];
    ReadLE32Slice(x + y, off, x[off..off + 4]);
    ReadLE32Slice(x, off, x[off..off + 4]);
  }

  lemma ReadLE16Prefix(x: seq<byte>, y: seq<byte>, off: nat)
    requires off + 2 <= |x|
    ensures ReadLE16(x + y, off) == ReadLE16(x, off)
  {
    assert (x + y)[off..off + 2] == x[off..off + 2];
    ReadLE16Slice(x + y, off, x[off..off + 2]);
    ReadLE16Slice(x, off, x[off..off + 2]);
  }

  lemma ReadLE32Suffix(x: seq<byte>, y: seq<byte>, off: nat)
    requires off + 4 <= |y|
    ensures ReadLE32(x + y, |x| + off) == ReadLE32(y, off)
  {
    assert (x + y)[|x| + off..|x| + off + 4] == y[off..off + 4];
    ReadLE32Slice(x + y, |x| + off, y[off..off + 4]);
    ReadLE32Slice(y, off, y[off..off + 4]);
  }

  lemma ReadLE16Suffix(x: seq<byte>, y: seq<byte>, off: nat)
    requires off + 2 <= |y|
    ensures ReadLE16(x + y, |x| + off) == ReadLE16(y, off)
  {
    assert (x + y)[|x| + off..|x| + off + 2] == y[off..off + 2];
    ReadLE16Slice(x + y, |x| + off, y[off..off + 2]);
    ReadLE16Slice(y, off, y[off..off + 2]);
  }

  /** The 44 header bytes of `w` carry the given field values. */
  predicate Describes(w: seq<byte>, riffSize: int, channels: int, sampleRate: int, byteRate: int,
                      align: int, bitsPerSample: int, dataLen: int)
  {
    |w| >= HeaderSize
    && w[0..4] == Ascii("RIFF") && ReadLE32(w, 4) == riffSize
    && w[8..16] == Ascii("WAVEfmt ") && ReadLE32(w, 16) == 16 && ReadLE16(w, 20) == 1
    && ReadLE16(w, 22) == channels && ReadLE32(w, SampleRateOffset) == sampleRate
    && ReadLE32(w, 28) == byteRate && ReadLE16(w, 32) == align && ReadLE16(w, 34) == bitsPerSample
    && w[36..40] == Ascii("data") && ReadLE32(w, 40) == dataLen
  }

  lemma PartsDescribe(riffSize: int, channels: int, sampleRate: int, byteRate: int,
                      align: int, bitsPerSample: int, dataLen: int, pcm: seq<byte>)
    requires IsU32(riffSize) && IsU16(channels) && IsU32(sampleRate) && IsU32(byteRate)
    requires IsU16(align) && IsU16(bitsPerSample) && IsU32(dataLen)
    ensures Describes(RiffPart(riffSize) + (FmtPart(channels, sampleRate, byteRate, align, bitsPerSample)
                      + (DataPart(dataLen) + pcm)),
                      riffSize, channels, sampleRate, byteRate, align, bitsPerSample, dataLen)
  {
    var r := RiffPart(riffSize);
    var f := FmtPart(channels, sampleRate, byteRate, align, bitsPerSample);
    var d := DataPart(dataLen);
    RiffPartReadsBack(riffSize);
    FmtPartReadsBack(channels, sampleRate, byteRate, align, bitsPerSample);
    DataPartReadsBack(dataLen);
    RiffSection(r, f + (d + pcm));
    FmtSection(r, f, d + pcm);
    DataSection(r, f, d, pcm);
  }

  /** The first 16 bytes of the header are the RIFF part's. */
  lemma RiffSection(r: seq<byte>, tail: seq<byte>)
    requires |r| == 16
    ensures var w := r + tail;
      w[0..4] == r[0..4] && w[8..16] == r[8..16] && ReadLE32(w, 4) == ReadLE32(r, 4)
  {
    ReadLE32Prefix(r, tail, 4);
  }

  /** Bytes 16 to 36 of the header are the `fmt ` part's. */
  lemma FmtSection(r: seq<byte>, f: seq<byte>, rest: seq<byte>)
    requires |r| == 16 && |f| == 20
    ensures var w := r + (f + rest);
      && ReadLE32(w, 16) == ReadLE32(f, 0) && ReadLE16(w, 20) == ReadLE16(f, 4)
      && ReadLE16(w, 22) == ReadLE16(f, 6) && ReadLE32(w, 24) == ReadLE32(f, 8)
      && ReadLE32(w, 28) == ReadLE32(f, 12) && ReadLE16(w, 32) == ReadLE16(f, 16)
      && ReadLE16(w, 34) == ReadLE16(f, 18)
  {
    var tail := f + rest;
    ReadLE32Prefix(f, rest, 0);
    ReadLE16Prefix(f, rest, 4);
    ReadLE16Prefix(f, rest, 6);
    ReadLE32Prefix(f, rest, 8);
    ReadLE32Prefix(f, rest, 12);
    ReadLE16Prefix(f, rest, 16);
    ReadLE16Prefix(f, rest, 18);
    ReadLE32Suffix(r, tail, 0);
    ReadLE16Suffix(r, tail, 4);
    ReadLE16Suffix(r, tail, 6);
    ReadLE32Suffix(r, tail, 8);
    ReadLE32Suffix(r, tail, 12);
    ReadLE16Suffix(r, tail, 16);
    ReadLE16Suffix(r, tail, 18);
  }

  /** Bytes 36 to 44 of the header are the `data` part's. */
  lemma DataSection(r: seq<byte>, f: seq<byte>, d: seq<byte>, pcm: seq<byte>)
    requires |r| == 16 && |f| == 20 && |d| == 8
    ensures var w := r + (f + (d + pcm));
      w[36..40] == d[0..4] && ReadLE32(w, 40) == ReadLE32(d, 4)
  {
    var w := r + (f + (d + pcm));
    ReadLE32Prefix(d, pcm, 4);
    ReadLE32Suffix(f, d + pcm, 4);
    ReadLE32Suffix(r, f + (d + pcm), 24);
    assert w[36..40] == d[0..4];
  }

  /** A reader of the header recovers every field `create_wav_header` wrote, at the
      standard RIFF offsets. */
  lemma WavHeaderReadsBack(pcm: seq<byte>, sampleRate: int, channels: int, bitsPerSample: int)
    requires HeaderFits(|pcm|, sampleRate, channels, bitsPerSample)
    ensures Describes(CreateWavHeader(pcm, sampleRate, channels, bitsPerSample).value,
                      36 + |pcm|, channels, sampleRate, sampleRate * channels * (bitsPerSample / 8),
                      channels * (bitsPerSample / 8), bitsPerSample, |pcm|)
  {
    PartsDescribe(36 + |pcm|, channels, sampleRate, sampleRate * channels * (bitsPerSample / 8),
                  channels * (bitsPerSample / 8), bitsPerSample, |pcm|, pcm);
  }

  /** The header the call loop builds (8 kHz, mono, 16-bit) fits for every utterance
      shorter than 4 GiB. */
  lemma CallHeaderFits(pcm: seq<byte>)
    requires 36 + |pcm| < 0x1_0000_0000
    ensures CreateWavHeader(pcm, 8000, 1, 16).Some?
  {
    assert 8000 * 1 * (16 / 8) == 16000;
  }
}
