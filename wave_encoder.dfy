/**
  The PCM WAV serialiser `bufferToWave`.

  The encoder writes the canonical 44-byte RIFF/WAVE header (format tag 1,
  16 bits per sample) through a cursor `pos` into a byte view, then writes
  every frame's samples, channel by channel, as two's-complement
  little-endian 16-bit integers. `WaveFile` is the byte image the encoder
  produces; `BufferToWave` is the imperative writer proved to produce it, and
  the lemmas below read the header fields and the samples back out of it.
*/
module WaveEncoder {

  type Byte = b: int | 0 <= b < 256

  const TwoTo16: int := 0x1_0000
  const TwoTo32: int := 0x1_0000_0000

  // ---------------------------------------------------------------------------
  // Little-endian fields, as DataView writes them with littleEndian = true.
  // setUint16/setInt16 first reduce the value modulo 2^16, setUint32 modulo 2^32.
  // ---------------------------------------------------------------------------

  function Le16(v: int): (r: seq<Byte>)
    ensures |r| == 2
  {
    var u := v % TwoTo16;
    [u % 256, u / 256]
  }

  function Le32(v: int): (r: seq<Byte>)
    ensures |r| == 4
  {
    var u0 := v % TwoTo32;
    var u1 := u0 / 256;
    var u2 := u1 / 256;
    [u0 % 256, u1 % 256, u2 % 256, u2 / 256]
  }

  /** `str.charCodeAt(i)` stored by `setUint8`, which keeps the low 8 bits. */
  function Ascii(s: string): (r: seq<Byte>)
    ensures |r| == |s|
  {
    seq(|s|, i requires 0 <= i < |s| => (s[i] as int) % 256)
  }

  /** Readers, as a consumer of the file decodes the fields. */
  function U16At(b: seq<Byte>, off: nat): int
    requires off + 2 <= |b|
  {
    b[off] as int + 256 * (b[off + 1] as int)
  }

  function U32At(b: seq<Byte>, off: nat): int
    requires off + 4 <= |b|
  {
    b[off] as int + 256 * (b[off + 1] as int) + 0x1_0000 * (b[off + 2] as int)
    + 0x100_0000 * (b[off + 3] as int)
  }

  function I16At(b: seq<Byte>, off: nat): int
    requires off + 2 <= |b|
  {
    var u := U16At(b, off);
    if u >= 0x8000 then u - TwoTo16 else u
  }

  lemma Le16RoundTrip(v: int)
    ensures U16At(Le16(v), 0) == v % TwoTo16
    ensures -0x8000 <= v < 0x8000 ==> I16At(Le16(v), 0) == v
  {
  }

  lemma Le32RoundTrip(v: int)
    ensures U32At(Le32(v), 0) == v % TwoTo32
  {
  }

  // ---------------------------------------------------------------------------
  // Sample conversion: clamp, asymmetric scale, `| 0`.
  // ---------------------------------------------------------------------------

  function Min(a: real, b: real): real { if a <= b then a else b }
  function Max(a: real, b: real): real { if a >= b then a else b }

  /** `Math.max(-1, Math.min(1, s))` */
  function Clamp(s: real): (c: real)
    ensures -1.0 <= c <= 1.0
    ensures -1.0 <= s <= 1.0 ==> c == s
    ensures s > 1.0 ==> c == 1.0
    ensures s < -1.0 ==> c == -1.0
  {
    Max(-1.0, Min(1.0, s))
  }

  /** `x | 0` for |x| < 2^31: ToInt32 truncates toward zero. */
  function TruncateToZero(x: real): (t: int)
    requires -2147483648.0 <= x < 2147483648.0
    ensures x >= 0.0 ==> t as real <= x < t as real + 1.0
    ensures x < 0.0 ==> t as real - 1.0 < x <= t as real
  {
    if x < 0.0 then -((-x).Floor) else x.Floor
  }

  /** One float sample as the 16-bit PCM value the encoder writes. */
  function Pcm16(s: real): (v: int)
    ensures -0x8000 <= v <= 0x7FFF
  {
    var c := Clamp(s);
    TruncateToZero(if c < 0.0 then c * 32768.0 else c * 32767.0)
  }

  /** The inverse scaling a reader applies to a decoded 16-bit sample. */
  function PcmToSample(v: int): real
  {
    if v < 0 then v as real / 32768.0 else v as real / 32767.0
  }

  lemma Pcm16Saturates(s: real)
    ensures s >= 1.0 ==> Pcm16(s) == 0x7FFF
    ensures s <= -1.0 ==> Pcm16(s) == -0x8000
    ensures s == 0.0 ==> Pcm16(s) == 0
  {
  }

  /** Decoding the written value and rescaling gives back the clamped sample,
      rounded toward zero by less than one quantisation step. */
  lemma Pcm16RoundTrip(s: real)
    ensures Clamp(s) < 0.0 ==> 0.0 <= PcmToSample(Pcm16(s)) - Clamp(s) < 1.0 / 32768.0
    ensures Clamp(s) >= 0.0 ==> 0.0 <= Clamp(s) - PcmToSample(Pcm16(s)) < 1.0 / 32767.0
  {
  }

  lemma Pcm16Monotonic(s: real, t: real)
    requires s <= t
    ensures Pcm16(s) <= Pcm16(t)
  {
  }

  // ---------------------------------------------------------------------------
  // The byte image of the file.
  // ---------------------------------------------------------------------------

  /** `channels[c][f]` past the end of a channel is `undefined`; the clamp turns
      it into NaN and `NaN | 0` is 0, so such a slot holds 0. */
  function SampleAt(channel: seq<real>, f: nat): int
  {
    if f < |channel| then Pcm16(channel[f]) else 0
  }

  /** Bytes of channels 0 .. c-1 of frame f. */
  function FrameBytes(channels: seq<seq<real>>, f: nat, c: nat): (r: seq<Byte>)
    requires c <= |channels|
    ensures |r| == 2 * c
  {
    if c == 0 then [] else FrameBytes(channels, f, c - 1) + Le16(SampleAt(channels[c - 1], f))
  }

  /** Bytes of frames 0 .. k-1, interleaved. */
  function DataBytes(channels: seq<seq<real>>, k: nat): (r: seq<Byte>)
    ensures |r| == k * |channels| * 2
  {
    if k == 0 then []
    else
      var d := DataBytes(channels, k - 1);
      assert k * |channels| == (k - 1) * |channels| + |channels|;
      d + FrameBytes(channels, k - 1, |channels|)
  }

  function TotalLength(len: nat, numOfChan: nat): nat
  {
    len * numOfChan * 2 + 44
  }

  /** The RIFF chunk descriptor: ChunkID, ChunkSize, Format. */
  function RiffDescriptor(total: int): (r: seq<Byte>)
    ensures |r| == 12
  {
    Ascii("RIFF") + Le32(total - 8) + Ascii("WAVE")
  }

  /** The "fmt " sub-chunk: PCM, 16 bits per sample. */
  function FmtChunk(numOfChan: nat, sampleRate: nat): (r: seq<Byte>)
    ensures |r| == 24
  {
    Ascii("fmt ") + Le32(16) + Le16(1) + Le16(numOfChan) + Le32(sampleRate)
    + Le32(sampleRate * 2 * numOfChan) + Le16(numOfChan * 2) + Le16(16)
  }

  /** The "data" sub-chunk header: Subchunk2ID, Subchunk2Size. */
  function DataChunkHeader(total: int): (r: seq<Byte>)
    ensures |r| == 8
  {
    Ascii("data") + Le32(total - 44)
  }

  function Header(numOfChan: nat, sampleRate: nat, total: int): (h: seq<Byte>)
    ensures |h| == 44
  {
    RiffDescriptor(total) + FmtChunk(numOfChan, sampleRate) + DataChunkHeader(total)
  }

  /** The file `bufferToWave(buffer, len)` fills: header, then `len` frames. */
  function WaveFile(channels: seq<seq<real>>, sampleRate: nat, len: nat): seq<Byte>
  {
    Header(|channels|, sampleRate, TotalLength(len, |channels|)) + DataBytes(channels, len)
  }

  // ---------------------------------------------------------------------------
  // Properties of the file.
  // ---------------------------------------------------------------------------

  lemma U16Field(w: seq<Byte>, off: nat, v: int)
    requires off + 2 <= |w| && w[off..off + 2] == Le16(v)
    ensures U16At(w, off) == v % TwoTo16
  {
    assert w[off] == Le16(v)[0] && w[off + 1] == Le16(v)[1];
    Le16RoundTrip(v);
  }

  lemma U32Field(w: seq<Byte>, off: nat, v: int)
    requires off + 4 <= |w| && w[off..off + 4] == Le32(v)
    ensures U32At(w, off) == v % TwoTo32
  {
    assert w[off] == Le32(v)[0] && w[off + 1] == Le32(v)[1];
    assert w[off + 2] == Le32(v)[2] && w[off + 3] == Le32(v)[3];
    Le32RoundTrip(v);
  }

  /** Where each field of the header sits. */
  lemma HeaderLayout(numOfChan: nat, sampleRate: nat, total: int)
    ensures var h := Header(numOfChan, sampleRate, total);
      && h[0..4] == Ascii("RIFF") && h[4..8] == Le32(total - 8)
      && h[8..12] == Ascii("WAVE") && h[12..16] == Ascii("fmt ")
      && h[16..20] == Le32(16) && h[20..22] == Le16(1)
      && h[22..24] == Le16(numOfChan) && h[24..28] == Le32(sampleRate)
      && h[28..32] == Le32(sampleRate * 2 * numOfChan)
      && h[32..34] == Le16(numOfChan * 2) && h[34..36] == Le16(16)
      && h[36..40] == Ascii("data") && h[40..44] == Le32(total - 44)
  {
  }

  /** Size fields: ChunkSize is the file length less 8, Subchunk2Size the
      length less the 44 header bytes (both as unsigned 32-bit fields). */
  lemma WaveFileSizes(channels: seq<seq<real>>, sampleRate: nat, len: nat)
    ensures var w := WaveFile(channels, sampleRate, len);
      && |w| == TotalLength(len, |channels|)
      && U32At(w, 4) == (|w| - 8) % TwoTo32
      && U32At(w, 40) == (|w| - 44) % TwoTo32
  {
    var w := WaveFile(channels, sampleRate, len);
    var total := TotalLength(len, |channels|);
    HeaderLayout(|channels|, sampleRate, total);
    assert w[..44] == Header(|channels|, sampleRate, total);
    assert w[4..8] == w[..44][4..8];
    assert w[40..44] == w[..44][40..44];
    U32Field(w, 4, total - 8);
    U32Field(w, 40, total - 44);
  }

  /** The tags of the header. */
  lemma WaveHeaderTags(channels: seq<seq<real>>, sampleRate: nat, len: nat)
    ensures var w := WaveFile(channels, sampleRate, len);
      && |w| >= 44
      && w[0..4] == Ascii("RIFF") && w[8..12] == Ascii("WAVE")
      && w[12..16] == Ascii("fmt ") && w[36..40] == Ascii("data")
  {
    var w := WaveFile(channels, sampleRate, len);
    HeaderLayout(|channels|, sampleRate, TotalLength(len, |channels|));
    assert w[..44] == Header(|channels|, sampleRate, TotalLength(len, |channels|));
    assert w[0..4] == w[..44][0..4] && w[8..12] == w[..44][8..12];
    assert w[12..16] == w[..44][12..16] && w[36..40] == w[..44][36..40];
  }

  /** The format fields of the header: PCM, the channel count, the rate and
      the rates derived from 16-bit samples. */
  lemma WaveHeaderFields(channels: seq<seq<real>>, sampleRate: nat, len: nat)
    ensures var w := WaveFile(channels, sampleRate, len);
      var n := |channels|;
      && |w| >= 44
      && U32At(w, 16) == 16
      && U16At(w, 20) == 1
      && U16At(w, 22) == n % TwoTo16
      && U32At(w, 24) == sampleRate % TwoTo32
      && U32At(w, 28) == (sampleRate * 2 * n) % TwoTo32
      && U16At(w, 32) == (n * 2) % TwoTo16
      && U16At(w, 34) == 16
  {
    var n := |channels|;
    var w := WaveFile(channels, sampleRate, len);
    var h := Header(n, sampleRate, TotalLength(len, n));
    HeaderLayout(n, sampleRate, TotalLength(len, n));
    assert w[..44] == h;
    assert w[16..20] == h[16..20] && w[20..22] == h[20..22];
    assert w[22..24] == h[22..24] && w[24..28] == h[24..28];
    assert w[28..32] == h[28..32] && w[32..34] == h[32..34];
    assert w[34..36] == h[34..36];
    U32Field(w, 16, 16);
    U16Field(w, 20, 1);
    U16Field(w, 22, n);
    U32Field(w, 24, sampleRate);
    U32Field(w, 28, sampleRate * 2 * n);
    U16Field(w, 32, n * 2);
    U16Field(w, 34, 16);
  }

  lemma {:induction false} FrameBytesAt(channels: seq<seq<real>>, f: nat, c: nat, k: nat)
    requires k < c <= |channels|
    ensures FrameBytes(channels, f, c)[2 * k] == Le16(SampleAt(channels[k], f))[0]
    ensures FrameBytes(channels, f, c)[2 * k + 1] == Le16(SampleAt(channels[k], f))[1]
  {
    if k < c - 1 {
      FrameBytesAt(channels, f, c - 1, k);
    }
  }

  /** k frames of s bytes are one frame more than k - 1 frames. */
  lemma PeelFrame(k: nat, s: nat)
    requires k >= 1
    ensures k * s == (k - 1) * s + s
    ensures s <= k * s
  {
    MulMonotonic(1, k, s);
  }

  lemma MulMonotonic(a: nat, b: nat, n: nat)
    requires a <= b
    ensures a * n <= b * n
  {
  }

  lemma {:induction false} DataBytesAt(channels: seq<seq<real>>, k: nat, f: nat, c: nat)
    requires f < k && c < |channels|
    ensures (f * |channels| + c) * 2 + 1 < |DataBytes(channels, k)|
    ensures DataBytes(channels, k)[(f * |channels| + c) * 2] == Le16(SampleAt(channels[c], f))[0]
    ensures DataBytes(channels, k)[(f * |channels| + c) * 2 + 1] == Le16(SampleAt(channels[c], f))[1]
  {
    var n := |channels|;
    var prev := DataBytes(channels, k - 1);
    var p := f * n + c;
    assert DataBytes(channels, k) == prev + FrameBytes(channels, k - 1, n);
    MulMonotonic(f + 1, k, n);
    if f == k - 1 {
      assert p * 2 == |prev| + c * 2;
      FrameBytesAt(channels, f, n, c);
    } else {
      MulMonotonic(f + 1, k - 1, n);
      DataBytesAt(channels, k - 1, f, c);
    }
  }

  lemma I16AfterPrefix(h: seq<Byte>, d: seq<Byte>, p: nat)
    requires p + 2 <= |d|
    ensures I16At(h + d, |h| + p) == I16At(d, p)
  {
    assert (h + d)[|h| + p] == d[p];
    assert (h + d)[|h| + p + 1] == d[p + 1];
  }

  lemma I16OfLe16(d: seq<Byte>, p: nat, v: int)
    requires p + 2 <= |d| && d[p] == Le16(v)[0] && d[p + 1] == Le16(v)[1]
    requires -0x8000 <= v < 0x8000
    ensures I16At(d, p) == v
  {
    Le16RoundTrip(v);
  }

  /** A field read past a 44-byte prefix reads the data section. */
  lemma DataSectionSample(h: seq<Byte>, channels: seq<seq<real>>, len: nat, f: nat, c: nat)
    requires |h| == 44 && f < len && c < |channels|
    ensures var w := h + DataBytes(channels, len);
      && 44 + (f * |channels| + c) * 2 + 2 <= |w|
      && I16At(w, 44 + (f * |channels| + c) * 2) == SampleAt(channels[c], f)
  {
    var d := DataBytes(channels, len);
    DataBytesAt(channels, len, f, c);
    var p := (f * |channels| + c) * 2;
    I16OfLe16(d, p, SampleAt(channels[c], f));
    I16AfterPrefix(h, d, p);
  }

  /** The sample of frame f, channel c is the 16-bit little-endian value at
      byte 44 + 2 * (f * numOfChan + c). */
  lemma SamplePlacement(channels: seq<seq<real>>, sampleRate: nat, len: nat, f: nat, c: nat)
    requires f < len && c < |channels|
    ensures var w := WaveFile(channels, sampleRate, len);
      && 44 + (f * |channels| + c) * 2 + 2 <= |w|
      && I16At(w, 44 + (f * |channels| + c) * 2) == SampleAt(channels[c], f)
  {
    DataSectionSample(Header(|channels|, sampleRate, TotalLength(len, |channels|)), channels, len, f, c);
  }

  // ---------------------------------------------------------------------------
  // The writer.
  // ---------------------------------------------------------------------------

  /** `setUint16(data)`: a 16-bit little-endian field at the cursor, which then
      moves on by 2. `setInt16` writes the same two bytes for a value in range. */
  method SetUint16(view: array<Byte>, pos: nat, data: int) returns (next: nat)
    requires pos + 2 <= view.Length
    modifies view
    ensures next == pos + 2
    ensures view[..next] == old(view[..pos]) + Le16(data)
    ensures view[next..] == old(view[next..])
  {
    var b := Le16(data);
    view[pos] := b[0];
    view[pos + 1] := b[1];
    next := pos + 2;
  }

  /** `setUint32(data)` */
  method SetUint32(view: array<Byte>, pos: nat, data: int) returns (next: nat)
    requires pos + 4 <= view.Length
    modifies view
    ensures next == pos + 4
    ensures view[..next] == old(view[..pos]) + Le32(data)
    ensures view[next..] == old(view[next..])
  {
    var b := Le32(data);
    view[pos] := b[0];
    view[pos + 1] := b[1];
    view[pos + 2] := b[2];
    view[pos + 3] := b[3];
    next := pos + 4;
  }

  /** `writeString(str)`: one byte per character, advancing the cursor. */
  method WriteString(view: array<Byte>, pos: nat, str: string) returns (next: nat)
    requires pos + |str| <= view.Length
    modifies view
    ensures next == pos + |str|
    ensures view[..next] == old(view[..pos]) + Ascii(str)
    ensures view[next..] == old(view[next..])
  {
    next := pos;
    for i := 0 to |str|
      invariant next == pos + i
      invariant view[..next] == old(view[..pos]) + Ascii(str)[..i]
      invariant view[pos + |str|..] == old(view[pos + |str|..])
    {
      view[next] := (str[i] as int) % 256;
      next := next + 1;
    }
  }

  /** ChunkID, ChunkSize and Format, from the start of the view. */
  method WriteRiffDescriptor(view: array<Byte>, length: int) returns (pos: nat)
    requires 12 <= view.Length
    modifies view
    ensures pos == 12
    ensures view[..pos] == RiffDescriptor(length)
    ensures view[pos..] == old(view[pos..])
  {
    pos := 0;
    pos := WriteString(view, pos, "RIFF");
    ghost var written := view[..pos];
    pos := SetUint32(view, pos, length - 8);
    written := written + Le32(length - 8);
    assert view[..pos] == written;
    pos := WriteString(view, pos, "WAVE");
  }

  /** Subchunk1ID, Subchunk1Size, AudioFormat and NumChannels. */
  method WriteFmtFormat(view: array<Byte>, start: nat, numOfChan: nat) returns (pos: nat)
    requires start + 12 <= view.Length
    modifies view
    ensures pos == start + 12
    ensures view[..pos] == old(view[..start]) + (Ascii("fmt ") + Le32(16) + Le16(1) + Le16(numOfChan))
    ensures view[pos..] == old(view[pos..])
  {
    ghost var written := view[..start];
    pos := WriteString(view, start, "fmt ");
    assert view[start + 12..] == view[pos..][8..];
    written := written + Ascii("fmt ");
    pos := SetUint32(view, pos, 16);
    assert view[start + 12..] == view[pos..][4..];
    written := written + Le32(16);
    pos := SetUint16(view, pos, 1);
    assert view[start + 12..] == view[pos..][2..];
    written := written + Le16(1);
    assert view[..pos] == written;
    pos := SetUint16(view, pos, numOfChan);
    written := written + Le16(numOfChan);
    assert view[..pos] == written;
  }

  /** SampleRate, ByteRate, BlockAlign and BitsPerSample. */
  method WriteFmtRates(view: array<Byte>, start: nat, numOfChan: nat, sampleRate: nat) returns (pos: nat)
    requires start + 12 <= view.Length
    modifies view
    ensures pos == start + 12
    ensures view[..pos] == old(view[..start])
      + (Le32(sampleRate) + Le32(sampleRate * 2 * numOfChan) + Le16(numOfChan * 2) + Le16(16))
    ensures view[pos..] == old(view[pos..])
  {
    ghost var written := view[..start];
    pos := SetUint32(view, start, sampleRate);
    assert view[start + 12..] == view[pos..][8..];
    written := written + Le32(sampleRate);
    pos := SetUint32(view, pos, sampleRate * 2 * numOfChan);
    assert view[start + 12..] == view[pos..][4..];
    written := written + Le32(sampleRate * 2 * numOfChan);
    assert view[..pos] == written;
    pos := SetUint16(view, pos, numOfChan * 2);
    assert view[start + 12..] == view[pos..][2..];
    written := written + Le16(numOfChan * 2);
    pos := SetUint16(view, pos, 16);
    written := written + Le16(16);
    assert view[..pos] == written;
  }

  /** The "fmt " sub-chunk, at the cursor. */
  method WriteFmtChunk(view: array<Byte>, start: nat, numOfChan: nat, sampleRate: nat) returns (pos: nat)
    requires start + 24 <= view.Length
    modifies view
    ensures pos == start + 24
    ensures view[..pos] == old(view[..start]) + FmtChunk(numOfChan, sampleRate)
    ensures view[pos..] == old(view[pos..])
  {
    ghost var before := view[..start];
    pos := WriteFmtFormat(view, start, numOfChan);
    ghost var head := Ascii("fmt ") + Le32(16) + Le16(1) + Le16(numOfChan);
    ghost var rates := Le32(sampleRate) + Le32(sampleRate * 2 * numOfChan) + Le16(numOfChan * 2) + Le16(16);
    pos := WriteFmtRates(view, pos, numOfChan, sampleRate);
    assert FmtChunk(numOfChan, sampleRate) == head + rates;
    assert view[..pos] == before + head + rates;
  }

  /** Subchunk2ID, then Subchunk2Size written as `length - pos - 4` with the
      cursor at 40, i.e. the length less the 44 header bytes. */
  method WriteDataChunkHeader(view: array<Byte>, start: nat, length: int) returns (pos: nat)
    requires start == 36 && start + 8 <= view.Length
    modifies view
    ensures pos == 44
    ensures view[..pos] == old(view[..start]) + DataChunkHeader(length)
    ensures view[pos..] == old(view[pos..])
  {
    pos := WriteString(view, start, "data");
    ghost var written := view[..pos];
    assert pos == 40;
    pos := SetUint32(view, pos, length - pos - 4);
    written := written + Le32(length - 44);
    assert view[..pos] == written;
  }

  /** The header writes of `bufferToWave`, in order. */
  method WriteHeader(view: array<Byte>, numOfChan: nat, sampleRate: nat, length: int) returns (pos: nat)
    requires 44 <= view.Length
    modifies view
    ensures pos == 44
    ensures view[..pos] == Header(numOfChan, sampleRate, length)
    ensures view[pos..] == old(view[pos..])
  {
    pos := WriteRiffDescriptor(view, length);
    pos := WriteFmtChunk(view, pos, numOfChan, sampleRate);
    pos := WriteDataChunkHeader(view, pos, length);
  }

  /** One pass of the inner loop of `bufferToWave`: every channel's sample of
      frame `offset`, converted and written as a 16-bit field. */
  method WriteFrame(view: array<Byte>, pos: nat, channels: seq<seq<real>>, offset: nat) returns (next: nat)
    requires pos + |channels| * 2 <= view.Length
    modifies view
    ensures next == pos + |channels| * 2
    ensures view[..next] == old(view[..pos]) + FrameBytes(channels, offset, |channels|)
    ensures view[next..] == old(view[next..])
  {
    ghost var done := view[..pos];
    ghost var rest := view[pos + |channels| * 2..];
    next := pos;
    var i := 0;
    while i < |channels|
      invariant 0 <= i <= |channels|
      invariant next == pos + i * 2
      invariant view[..next] == done + FrameBytes(channels, offset, i)
      invariant view[pos + |channels| * 2..] == rest
    {
      var sample := SampleAt(channels[i], offset);
      next := SetUint16(view, next, sample);
      assert done + FrameBytes(channels, offset, i + 1)
          == (done + FrameBytes(channels, offset, i)) + Le16(sample);
      i := i + 1;
    }
  }

  lemma AppendFrame(before: seq<Byte>, channels: seq<seq<real>>, k: nat)
    ensures before + DataBytes(channels, k + 1)
         == (before + DataBytes(channels, k)) + FrameBytes(channels, k, |channels|)
  {
  }

  /** The frame loop of `bufferToWave`: frames 0 .. len - 1, from the cursor to
      the end of the view. */
  method WriteData(view: array<Byte>, start: nat, channels: seq<seq<real>>, len: nat) returns (pos: nat)
    requires start + len * |channels| * 2 == view.Length
    modifies view
    ensures pos == view.Length
    ensures view[..pos] == old(view[..start]) + DataBytes(channels, len)
  {
    ghost var before := view[..start];
    var frameSize := |channels| * 2;
    ghost var remaining: nat := len;
    assert len * |channels| * 2 == remaining * frameSize;
    assert before + DataBytes(channels, 0) == before;
    pos := start;
    var offset := 0;
    while offset < len
      invariant 0 <= offset <= len && remaining == len - offset
      invariant pos + remaining * frameSize == view.Length
      invariant view[..pos] == before + DataBytes(channels, offset)
    {
      PeelFrame(remaining, frameSize);
      pos := WriteFrame(view, pos, channels, offset);
      AppendFrame(before, channels, offset);
      offset := offset + 1;
      remaining := remaining - 1;
    }
  }

  /** `bufferToWave(buffer, len)`: the bytes of the returned blob. */
  method BufferToWave(channels: seq<seq<real>>, sampleRate: nat, len: nat) returns (wav: seq<Byte>)
    ensures |wav| == TotalLength(len, |channels|)
    ensures wav == WaveFile(channels, sampleRate, len)
  {
    var numOfChan := |channels|;
    var length := len * numOfChan * 2 + 44;
    var view := new Byte[length];
    var pos: nat := 0;

    pos := WriteHeader(view, numOfChan, sampleRate, length);
    pos := WriteData(view, pos, channels, len);
    assert view[..] == view[..pos];
    wav := view[..];
  }
}
