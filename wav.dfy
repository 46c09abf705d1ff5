/** The WAV encoder of the voice recorder (`audioBufferToWav` in src/components/VoiceRecorder.tsx)
    and the recorder's button state.

    The encoder writes a 44-byte RIFF/WAVE PCM header and then the interleaved frames, two
    little-endian bytes per sample, into a zero-filled buffer, at increasing offsets. Samples
    are taken already scaled by 0x7FFF and truncated to integers (the floating-point product is
    not modelled); `DataView`'s conversions to 16 and 32 bits are written out as reductions
    modulo 2^16 and 2^32. */
module Wav {
  type Byte = b: int | 0 <= b < 256

  const Two16: int := 0x1_0000
  const Two32: int := 0x1_0000_0000

  /** The bytes of `setUint16(offset, x, true)`; `setInt16` writes the same bytes. */
  function LE16(x: int): (r: seq<Byte>)
    ensures |r| == 2
  {
    var v := x % 0x1_0000;
    [v % 256, v / 256]
  }

  /** The bytes of `setUint32(offset, x, true)`. */
  function LE32(x: int): (r: seq<Byte>)
    ensures |r| == 4
  {
    var v := x % 0x1_0000_0000;
    var a := v / 256;
    var b := a / 256;
    [v % 256, a % 256, b % 256, b / 256]
  }

  /** How a reader of the file decodes the unsigned little-endian fields. */
  function U16At(s: seq<Byte>, o: nat): int
    requires o + 2 <= |s|
  {
    s[o] as int + 256 * s[o + 1] as int
  }

  function U32At(s: seq<Byte>, o: nat): int
    requires o + 4 <= |s|
  {
    s[o] as int + 256 * (s[o + 1] as int + 256 * (s[o + 2] as int + 256 * s[o + 3] as int))
  }

  /** A signed 16-bit little-endian field. */
  function I16At(s: seq<Byte>, o: nat): int
    requires o + 2 <= |s|
  {
    var u := U16At(s, o);
    if u >= 0x8000 then u - Two16 else u
  }

  lemma ReadLE16(x: int)
    ensures U16At(LE16(x), 0) == x % Two16
  {
  }

  lemma ReadLE32(x: int)
    ensures U32At(LE32(x), 0) == x % Two32
  {
    var v := x % Two32;
    var a := v / 256;
    var b := a / 256;
    assert v == a * 256 + v % 256;
    assert a == b * 256 + a % 256;
    assert b == (b / 256) * 256 + b % 256;
  }

  /** `writeString` of a four-letter ASCII tag. */
  function Ascii(s: string): (r: seq<Byte>)
    requires forall i :: 0 <= i < |s| ==> s[i] as int < 256
    ensures |r| == |s| && forall i :: 0 <= i < |s| ==> r[i] == s[i] as int
  {
    seq(|s|, i requires 0 <= i < |s| => s[i] as int)
  }

  /** The number of bytes of sample data. */
  function DataSize(length: nat, numChannels: nat): nat {
    2 * (length * numChannels)
  }

  /** The RIFF chunk header: offsets 0, 4 and 8. */
  function RiffPart(length: nat, numChannels: nat): (r: seq<Byte>)
    ensures |r| == 12
  {
    Ascii("RIFF") + LE32(36 + DataSize(length, numChannels)) + Ascii("WAVE")
  }

  /** The `fmt ` chunk: offsets 12, 16, 20, 22, 24, 28, 32 and 34. */
  function FmtPart(sampleRate: int, numChannels: nat): (r: seq<Byte>)
    ensures |r| == 24
  {
    Ascii("fmt ") + LE32(16) + LE16(1) + LE16(numChannels) + LE32(sampleRate)
    + LE32(sampleRate * numChannels * 2) + LE16(numChannels * 2) + LE16(16)
  }

  /** The `data` chunk header: offsets 36 and 40. */
  function DataPart(length: nat, numChannels: nat): (r: seq<Byte>)
    ensures |r| == 8
  {
    Ascii("data") + LE32(DataSize(length, numChannels))
  }

  /** The 44-byte header. */
  function Header(length: nat, sampleRate: int, numChannels: nat): (h: seq<Byte>)
    ensures |h| == 44
  {
    RiffPart(length, numChannels) + FmtPart(sampleRate, numChannels) + DataPart(length, numChannels)
  }

  /** The header carries the four tags at their offsets. */
  lemma HeaderTags(length: nat, sampleRate: int, numChannels: nat)
    ensures var h := Header(length, sampleRate, numChannels);
      h[0..4] == Ascii("RIFF") && h[8..12] == Ascii("WAVE") && h[12..16] == Ascii("fmt ")
      && h[36..40] == Ascii("data")
  {
  }

  /** A 16-bit field read through a concatenation. */
  lemma U16OfConcat(t: seq<Byte>, u: seq<Byte>, o: nat)
    ensures o + 2 <= |t| ==> U16At(t + u, o) == U16At(t, o)
    ensures |t| <= o && o + 2 <= |t| + |u| ==> U16At(t + u, o) == U16At(u, o - |t|)
  {
  }

  /** A 32-bit field read through a concatenation. */
  lemma U32OfConcat(t: seq<Byte>, u: seq<Byte>, o: nat)
    ensures o + 4 <= |t| ==> U32At(t + u, o) == U32At(t, o)
    ensures |t| <= o && o + 4 <= |t| + |u| ==> U32At(t + u, o) == U32At(u, o - |t|)
  {
  }

  /** The RIFF chunk size. */
  lemma RiffFields(length: nat, numChannels: nat)
    ensures U32At(RiffPart(length, numChannels), 4) == (36 + DataSize(length, numChannels)) % Two32
  {
    var d := DataSize(length, numChannels);
    var front := Ascii("RIFF") + LE32(36 + d);
    U32OfConcat(front, Ascii("WAVE"), 4);
    U32OfConcat(Ascii("RIFF"), LE32(36 + d), 4);
    ReadLE32(36 + d);
  }

  /** The eight fields of the `fmt ` chunk. */
  lemma FmtFields(sampleRate: int, numChannels: nat)
    ensures var f := FmtPart(sampleRate, numChannels);
      U32At(f, 4) == 16 && U16At(f, 8) == 1 && U16At(f, 10) == numChannels % Two16
      && U32At(f, 12) == sampleRate % Two32
      && U32At(f, 16) == (sampleRate * numChannels * 2) % Two32
      && U16At(f, 20) == (numChannels * 2) % Two16 && U16At(f, 22) == 16
  {
    var p0 := Ascii("fmt ");
    var p1 := p0 + LE32(16);
    var p2 := p1 + LE16(1);
    var p3 := p2 + LE16(numChannels);
    var p4 := p3 + LE32(sampleRate);
    var p5 := p4 + LE32(sampleRate * numChannels * 2);
    var p6 := p5 + LE16(numChannels * 2);
    var f := p6 + LE16(16);
    assert f == FmtPart(sampleRate, numChannels);
    // Offset 4.
    U32OfConcat(p0, LE32(16), 4);
    U32OfConcat(p1, LE16(1), 4);
    U32OfConcat(p2, LE16(numChannels), 4);
    U32OfConcat(p3, LE32(sampleRate), 4);
    U32OfConcat(p4, LE32(sampleRate * numChannels * 2), 4);
    U32OfConcat(p5, LE16(numChannels * 2), 4);
    U32OfConcat(p6, LE16(16), 4);
    ReadLE32(16);
    // Offset 8.
    U16OfConcat(p1, LE16(1), 8);
    U16OfConcat(p2, LE16(numChannels), 8);
    U16OfConcat(p3, LE32(sampleRate), 8);
    U16OfConcat(p4, LE32(sampleRate * numChannels * 2), 8);
    U16OfConcat(p5, LE16(numChannels * 2), 8);
    U16OfConcat(p6, LE16(16), 8);
    ReadLE16(1);
    // Offset 10.
    U16OfConcat(p2, LE16(numChannels), 10);
    U16OfConcat(p3, LE32(sampleRate), 10);
    U16OfConcat(p4, LE32(sampleRate * numChannels * 2), 10);
    U16OfConcat(p5, LE16(numChannels * 2), 10);
    U16OfConcat(p6, LE16(16), 10);
    ReadLE16(numChannels);
    // Offset 12.
    U32OfConcat(p3, LE32(sampleRate), 12);
    U32OfConcat(p4, LE32(sampleRate * numChannels * 2), 12);
    U32OfConcat(p5, LE16(numChannels * 2), 12);
    U32OfConcat(p6, LE16(16), 12);
    ReadLE32(sampleRate);
    // Offset 16.
    U32OfConcat(p4, LE32(sampleRate * numChannels * 2), 16);
    U32OfConcat(p5, LE16(numChannels * 2), 16);
    U32OfConcat(p6, LE16(16), 16);
    ReadLE32(sampleRate * numChannels * 2);
    // Offsets 20 and 22.
    U16OfConcat(p5, LE16(numChannels * 2), 20);
    U16OfConcat(p6, LE16(16), 20);
    ReadLE16(numChannels * 2);
    U16OfConcat(p6, LE16(16), 22);
    ReadLE16(16);
  }

  /** The `data` chunk size. */
  lemma DataFields(length: nat, numChannels: nat)
    ensures U32At(DataPart(length, numChannels), 4) == DataSize(length, numChannels) % Two32
  {
    U32OfConcat(Ascii("data"), LE32(DataSize(length, numChannels)), 4);
    ReadLE32(DataSize(length, numChannels));
  }

  /** The header's integer fields decode to the source's values, reduced to the field width. */
  lemma HeaderFields(length: nat, sampleRate: int, numChannels: nat)
    ensures var h := Header(length, sampleRate, numChannels);
      U32At(h, 4) == (36 + DataSize(length, numChannels)) % Two32
      && U32At(h, 16) == 16 && U16At(h, 20) == 1 && U16At(h, 22) == numChannels % Two16
      && U32At(h, 24) == sampleRate % Two32
      && U32At(h, 28) == (sampleRate * numChannels * 2) % Two32
      && U16At(h, 32) == (numChannels * 2) % Two16 && U16At(h, 34) == 16
      && U32At(h, 40) == DataSize(length, numChannels) % Two32
  {
    var r := RiffPart(length, numChannels);
    var f := FmtPart(sampleRate, numChannels);
    var d := DataPart(length, numChannels);
    RiffFields(length, numChannels);
    FmtFields(sampleRate, numChannels);
    DataFields(length, numChannels);
    U32OfConcat(r + f, d, 4);
    U32OfConcat(r, f, 4);
    U32OfConcat(r + f, d, 40);
    U32OfConcat(r + f, d, 16);
    U32OfConcat(r, f, 16);
    U16OfConcat(r + f, d, 20);
    U16OfConcat(r, f, 20);
    U16OfConcat(r + f, d, 22);
    U16OfConcat(r, f, 22);
    U32OfConcat(r + f, d, 24);
    U32OfConcat(r, f, 24);
    U32OfConcat(r + f, d, 28);
    U32OfConcat(r, f, 28);
    U16OfConcat(r + f, d, 32);
    U16OfConcat(r, f, 32);
    U16OfConcat(r + f, d, 34);
    U16OfConcat(r, f, 34);
  }

  /** `Math.max(-1, Math.min(1, sample))`, in units of 1/0x7FFF. */
  function Clamp(q: int): (r: int)
    ensures -0x7FFF <= r <= 0x7FFF
    ensures -0x7FFF <= q <= 0x7FFF ==> r == q
    ensures q > 0x7FFF ==> r == 0x7FFF
    ensures q < -0x7FFF ==> r == -0x7FFF
  {
    if q > 0x7FFF then 0x7FFF else if q < -0x7FFF then -0x7FFF else q
  }

  /** `setInt16(offset, v, true)`: the 16-bit two's complement of `v`, low byte first. */
  function Int16LE(v: int): (r: seq<Byte>)
    requires -0x8000 <= v < 0x8000
    ensures |r| == 2
  {
    var u := if v < 0 then v + 0x1_0000 else v;
    [u % 256, u / 256]
  }

  /** `setInt16` writes the bytes `setUint16` writes for the same value. */
  lemma Int16IsLE16(v: int)
    requires -0x8000 <= v < 0x8000
    ensures Int16LE(v) == LE16(v)
  {
  }

  /** A 16-bit value reads back as itself. */
  lemma ReadInt16LE(v: int)
    requires -0x8000 <= v < 0x8000
    ensures I16At(Int16LE(v), 0) == v
  {
  }

  /** The two bytes of one sample. */
  function SampleBytes(q: int): (r: seq<Byte>)
    ensures |r| == 2
  {
    Int16LE(Clamp(q))
  }

  /** Channels `0..c-1` of frame `i`. */
  function FramePart(channels: seq<seq<int>>, i: nat, c: nat): (r: seq<Byte>)
    requires c <= |channels| && forall k :: 0 <= k < |channels| ==> i < |channels[k]|
    ensures |r| == 2 * c
  {
    if c == 0 then [] else FramePart(channels, i, c - 1) + SampleBytes(channels[c - 1][i])
  }

  /** The first `n` frames, interleaved. */
  function Frames(channels: seq<seq<int>>, n: nat): (r: seq<Byte>)
    requires forall k :: 0 <= k < |channels| ==> n <= |channels[k]|
  {
    if n == 0 then [] else Frames(channels, n - 1) + FramePart(channels, n - 1, |channels|)
  }

  /** The whole file. */
  function WavFile(length: nat, sampleRate: int, channels: seq<seq<int>>): seq<Byte>
    requires forall k :: 0 <= k < |channels| ==> |channels[k]| == length
  {
    Header(length, sampleRate, |channels|) + Frames(channels, length)
  }

  /** The file is the header followed by two bytes per sample. */
  lemma WavFileLength(length: nat, sampleRate: int, channels: seq<seq<int>>)
    requires forall k :: 0 <= k < |channels| ==> |channels[k]| == length
    ensures |WavFile(length, sampleRate, channels)| == 44 + DataSize(length, |channels|)
  {
    FramesLength(channels, length);
  }

  /** Each frame holds two bytes per channel. */
  lemma {:induction false} FramesLength(channels: seq<seq<int>>, n: nat)
    requires forall k :: 0 <= k < |channels| ==> n <= |channels[k]|
    ensures |Frames(channels, n)| == 2 * (n * |channels|)
  {
    if n > 0 {
      FramesLength(channels, n - 1);
      assert n * |channels| == (n - 1) * |channels| + |channels|;
    }
  }

  lemma {:induction false} FramePartSample(channels: seq<seq<int>>, i: nat, c: nat, k: nat)
    requires c <= |channels| && forall j :: 0 <= j < |channels| ==> i < |channels[j]|
    requires k < c
    ensures FramePart(channels, i, c)[2 * k..2 * k + 2] == SampleBytes(channels[k][i])
    decreases c
  {
    var front := FramePart(channels, i, c - 1);
    assert FramePart(channels, i, c) == front + SampleBytes(channels[c - 1][i]);
    if k < c - 1 {
      FramePartSample(channels, i, c - 1, k);
      assert (front + SampleBytes(channels[c - 1][i]))[2 * k..2 * k + 2] == front[2 * k..2 * k + 2];
    }
  }

  /** The first `i` frames begin the first `n`. */
  lemma {:induction false} FramesPrefix(channels: seq<seq<int>>, i: nat, n: nat)
    requires forall k :: 0 <= k < |channels| ==> n <= |channels[k]|
    requires i <= n
    ensures |Frames(channels, i)| <= |Frames(channels, n)|
    ensures Frames(channels, n)[..|Frames(channels, i)|] == Frames(channels, i)
    decreases n
  {
    if i < n {
      FramesPrefix(channels, i, n - 1);
      var front := Frames(channels, n - 1);
      assert Frames(channels, n) == front + FramePart(channels, n - 1, |channels|);
      TakeOfConcat(front, FramePart(channels, n - 1, |channels|), |Frames(channels, i)|);
    }
  }

  /** The first `i + 1` frames are the first `i` and frame `i`. */
  lemma FramesStep(channels: seq<seq<int>>, i: nat)
    requires forall k :: 0 <= k < |channels| ==> i < |channels[k]|
    ensures Frames(channels, i + 1) == Frames(channels, i) + FramePart(channels, i, |channels|)
  {
  }

  /** Frame `i` follows the frames before it within the first `n`. */
  lemma FrameBegins(channels: seq<seq<int>>, i: nat, n: nat)
    requires forall k :: 0 <= k < |channels| ==> n <= |channels[k]|
    requires i < n
    ensures var f := Frames(channels, i) + FramePart(channels, i, |channels|);
      |f| <= |Frames(channels, n)| && Frames(channels, n)[..|f|] == f
  {
    FramesStep(channels, i);
    FramesPrefix(channels, i + 1, n);
  }

  /** Sample `c` of frame `i` follows the first `i` frames and the frame's earlier channels. */
  lemma FramesSample(channels: seq<seq<int>>, n: nat, i: nat, c: nat)
    requires forall k :: 0 <= k < |channels| ==> n <= |channels[k]|
    requires i < n && c < |channels|
    ensures |Frames(channels, i)| + 2 * c + 2 <= |Frames(channels, n)|
    ensures Frames(channels, n)[|Frames(channels, i)| + 2 * c..|Frames(channels, i)| + 2 * c + 2]
      == SampleBytes(channels[c][i])
  {
    var front := Frames(channels, i);
    var part := FramePart(channels, i, |channels|);
    FrameBegins(channels, i, n);
    FramePartSample(channels, i, |channels|, c);
    var o := |front| + 2 * c;
    SliceOfPrefix(Frames(channels, n), front + part, o, o + 2);
    SliceOfSuffix(front, part, o, o + 2);
  }

  lemma TakeOfConcat<T>(t: seq<T>, u: seq<T>, k: nat)
    requires k <= |t|
    ensures (t + u)[..k] == t[..k]
  {
    assert forall j :: 0 <= j < k ==> (t + u)[j] == t[j];
  }

  lemma SliceOfSuffix<T>(t: seq<T>, u: seq<T>, lo: nat, hi: nat)
    requires |t| <= lo <= hi <= |t| + |u|
    ensures (t + u)[lo..hi] == u[lo - |t|..hi - |t|]
  {
    assert forall j :: lo <= j < hi ==> (t + u)[j] == u[j - |t|];
  }

  lemma SliceOfPrefix<T>(s: seq<T>, t: seq<T>, lo: nat, hi: nat)
    requires |t| <= |s| && s[..|t|] == t && lo <= hi <= |t|
    ensures s[lo..hi] == t[lo..hi]
  {
    assert forall j :: lo <= j < hi ==> s[j] == s[..|t|][j];
  }

  /** Sample `i` of channel `c` sits at offset 44 + 2(i·channels + c) and reads back as the
      clamped sample. */
  lemma SampleLayout(length: nat, sampleRate: int, channels: seq<seq<int>>, i: nat, c: nat)
    requires forall k :: 0 <= k < |channels| ==> |channels[k]| == length
    requires i < length && c < |channels|
    ensures var w, o := WavFile(length, sampleRate, channels), 44 + 2 * (i * |channels| + c);
      o + 2 <= |w| && w[o..o + 2] == SampleBytes(channels[c][i]) && I16At(w, o) == Clamp(channels[c][i])
  {
    var h := Header(length, sampleRate, |channels|);
    var f := Frames(channels, length);
    FramesLength(channels, i);
    FramesSample(channels, length, i, c);
    var o := 2 * (i * |channels| + c);
    assert o == |Frames(channels, i)| + 2 * c;
    SliceOfSuffix(h, f, 44 + o, 44 + o + 2);
    ReadInt16LE(Clamp(channels[c][i]));
    assert I16At(h + f, 44 + o) == I16At((h + f)[44 + o..44 + o + 2], 0);
  }

  // ---------------------------------------------------------------------------
  // Writing into the buffer

  /** Writes `bytes` at `off`, leaving the bytes before it alone. */
  method Put(a: array<Byte>, off: nat, bytes: seq<Byte>)
    requires off + |bytes| <= a.Length
    modifies a
    ensures a[..off] == old(a[..off]) && a[off..off + |bytes|] == bytes
  {
    for j := 0 to |bytes|
      invariant a[..off] == old(a[..off]) && a[off..off + j] == bytes[..j]
    {
      a[off + j] := bytes[j];
      assert a[off..off + j + 1] == a[off..off + j] + [bytes[j]];
    }
  }

  /** Appending `bytes` at the end of a written prefix. */
  method Append(a: array<Byte>, off: nat, ghost prefix: seq<Byte>, bytes: seq<Byte>)
    requires off == |prefix| && off + |bytes| <= a.Length && a[..off] == prefix
    modifies a
    ensures a[..off + |bytes|] == prefix + bytes
  {
    Put(a, off, bytes);
    assert a[..off + |bytes|] == a[..off] + a[off..off + |bytes|];
  }

  /** The writes at offsets 0, 4 and 8. */
  method WriteRiff(buf: array<Byte>, length: nat, numChannels: nat)
    requires 44 <= buf.Length
    modifies buf
    ensures buf[..12] == RiffPart(length, numChannels)
  {
    Append(buf, 0, [], Ascii("RIFF"));
    Append(buf, 4, Ascii("RIFF"), LE32(36 + length * numChannels * 2));
    Append(buf, 8, Ascii("RIFF") + LE32(36 + length * numChannels * 2), Ascii("WAVE"));
  }

  /** The writes at offsets 12 to 34. */
  method WriteFmt(buf: array<Byte>, ghost riff: seq<Byte>, sampleRate: int, numChannels: nat)
    requires 44 <= buf.Length && |riff| == 12 && buf[..12] == riff
    modifies buf
    ensures buf[..36] == riff + FmtPart(sampleRate, numChannels)
  {
    ghost var w := riff;
    Append(buf, 12, w, Ascii("fmt "));
    w := w + Ascii("fmt ");
    Append(buf, 16, w, LE32(16));
    w := w + LE32(16);
    Append(buf, 20, w, LE16(1));
    w := w + LE16(1);
    Append(buf, 22, w, LE16(numChannels));
    w := w + LE16(numChannels);
    Append(buf, 24, w, LE32(sampleRate));
    w := w + LE32(sampleRate);
    Append(buf, 28, w, LE32(sampleRate * numChannels * 2));
    w := w + LE32(sampleRate * numChannels * 2);
    Append(buf, 32, w, LE16(numChannels * 2));
    w := w + LE16(numChannels * 2);
    Append(buf, 34, w, LE16(16));
  }

  /** The writes at offsets 36 and 40. */
  method WriteData(buf: array<Byte>, ghost front: seq<Byte>, length: nat, numChannels: nat)
    requires 44 <= buf.Length && |front| == 36 && buf[..36] == front
    modifies buf
    ensures buf[..44] == front + DataPart(length, numChannels)
  {
    Append(buf, 36, front, Ascii("data"));
    Append(buf, 40, front + Ascii("data"), LE32(length * numChannels * 2));
  }

  /** The header writes of `audioBufferToWav`, at increasing offsets. */
  method WriteHeader(buf: array<Byte>, length: nat, sampleRate: int, numChannels: nat)
    requires 44 <= buf.Length
    modifies buf
    ensures buf[..44] == Header(length, sampleRate, numChannels)
  {
    WriteRiff(buf, length, numChannels);
    WriteFmt(buf, RiffPart(length, numChannels), sampleRate, numChannels);
    WriteData(buf, RiffPart(length, numChannels) + FmtPart(sampleRate, numChannels), length, numChannels);
  }

  /** One frame of the sample loop: the samples of frame `i`, channel by channel, from `off`. */
  method WriteFrame(buf: array<Byte>, off: nat, ghost done: seq<Byte>, channels: seq<seq<int>>, i: nat)
    requires forall k :: 0 <= k < |channels| ==> i < |channels[k]|
    requires off == |done| && off + 2 * |channels| <= buf.Length && buf[..off] == done
    modifies buf
    ensures buf[..off + 2 * |channels|] == done + FramePart(channels, i, |channels|)
  {
    var offset := off;
    assert done + FramePart(channels, i, 0) == done;
    for channel := 0 to |channels|
      invariant offset == off + 2 * channel
      invariant buf[..offset] == done + FramePart(channels, i, channel)
    {
      ghost var part := FramePart(channels, i, channel);
      var sample := SampleBytes(channels[channel][i]);
      Append(buf, offset, done + part, sample);
      assert done + part + sample == done + (part + sample);
      offset := offset + 2;
    }
  }

  /** One pass of the sample loop's outer body: frame `i` follows the frames before it. */
  method WriteNextFrame(buf: array<Byte>, offset: nat, ghost header: seq<Byte>, length: nat,
                        channels: seq<seq<int>>, i: nat) returns (next: nat)
    requires forall k :: 0 <= k < |channels| ==> |channels[k]| == length
    requires i < length && buf.Length == 44 + |Frames(channels, length)|
    requires offset == |header| + |Frames(channels, i)| && |header| == 44 && offset <= buf.Length
    requires buf[..offset] == header + Frames(channels, i)
    modifies buf
    ensures next == |header| + |Frames(channels, i + 1)| && next <= buf.Length
    ensures buf[..next] == header + Frames(channels, i + 1)
  {
    ghost var done := header + Frames(channels, i);
    FrameBegins(channels, i, length);
    WriteFrame(buf, offset, done, channels, i);
    assert done + FramePart(channels, i, |channels|) == header + Frames(channels, i + 1);
    next := offset + 2 * |channels|;
  }

  /** The sample loop of `audioBufferToWav`: frame by frame from offset 44. */
  method WriteFrames(buf: array<Byte>, ghost header: seq<Byte>, length: nat, channels: seq<seq<int>>)
    requires forall k :: 0 <= k < |channels| ==> |channels[k]| == length
    requires |header| == 44 && buf.Length == 44 + |Frames(channels, length)| && buf[..44] == header
    modifies buf
    ensures buf[..] == header + Frames(channels, length)
  {
    var offset := 44;
    assert header + Frames(channels, 0) == header;
    for i := 0 to length
      invariant offset == 44 + |Frames(channels, i)| && offset <= buf.Length
      invariant buf[..offset] == header + Frames(channels, i)
    {
      offset := WriteNextFrame(buf, offset, header, length, channels, i);
    }
    assert buf[..] == buf[..offset];
  }

  /** `audioBufferToWav`: `channels[c]` is `getChannelData(c)`, each `length` samples long;
      the buffer starts zero-filled. */
  method AudioBufferToWav(length: nat, sampleRate: int, channels: seq<seq<int>>) returns (buf: array<Byte>)
    requires forall k :: 0 <= k < |channels| ==> |channels[k]| == length
    ensures fresh(buf) && buf.Length == 44 + DataSize(length, |channels|)
    ensures buf[..] == WavFile(length, sampleRate, channels)
  {
    buf := new Byte[44 + DataSize(length, |channels|)];
    WriteHeader(buf, length, sampleRate, |channels|);
    FramesLength(channels, length);
    WriteFrames(buf, Header(length, sampleRate, |channels|), length, channels);
  }
}

/** The recorder button (src/components/VoiceRecorder.tsx): recording, stopping into
    processing, and the click handler. Microphone access, the media recorder's events and the
    transcription request are steps with their outcomes as parameters. */
module VoiceRecorder {
  datatype RecorderState = Inactive | Recording

  class Recorder {
    var isRecording: bool
    var isProcessing: bool
    /** `mediaRecorderRef.current` and its `state`. */
    var recorder: RecorderState
    var hasRecorder: bool

    /** The button shows recording exactly while the media recorder records, and never while
        a recording is processed. */
    ghost predicate Valid()
      reads this
    {
      (isRecording <==> hasRecorder && recorder == Recording) && !(isRecording && isProcessing)
    }

    constructor ()
      ensures Valid() && !isRecording && !isProcessing && !hasRecorder
    {
      isRecording := false;
      isProcessing := false;
      recorder := Inactive;
      hasRecorder := false;
    }

    /** `startRecording`; `granted` says whether the microphone could be opened. */
    method StartRecording(granted: bool)
      requires Valid() && !isRecording && !isProcessing
      modifies this
      ensures Valid() && !isProcessing
      ensures granted ==> isRecording && hasRecorder && recorder == Recording
      ensures !granted ==>
        (isRecording == old(isRecording) && hasRecorder == old(hasRecorder) && recorder == old(recorder))
    {
      if granted {
        hasRecorder := true;
        recorder := Recording;
        isRecording := true;
      }
    }

    /** `stopRecording`: only a recording media recorder is stopped. */
    method StopRecording()
      requires Valid()
      modifies this
      ensures Valid()
      ensures old(hasRecorder && recorder == Recording) ==>
        (!isRecording && isProcessing && recorder == Inactive && hasRecorder)
      ensures !old(hasRecorder && recorder == Recording) ==>
        (isRecording == old(isRecording) && isProcessing == old(isProcessing)
         && recorder == old(recorder) && hasRecorder == old(hasRecorder))
    {
      if hasRecorder && recorder == Recording {
        recorder := Inactive;
        isRecording := false;
        isProcessing := true;
      }
    }

    /** The end of `processAudio`, whatever the transcription request did. */
    method ProcessingDone()
      requires Valid()
      modifies this`isProcessing
      ensures Valid() && !isProcessing
    {
      isProcessing := false;
    }

    /** `handleClick`: ignored while disabled or processing; otherwise it stops a recording or
        starts one. */
    method HandleClick(disabled: bool, granted: bool)
      requires Valid()
      modifies this
      ensures Valid()
      ensures disabled || old(isProcessing) ==>
        (isRecording == old(isRecording) && isProcessing == old(isProcessing)
        && recorder == old(recorder) && hasRecorder == old(hasRecorder))
      ensures !disabled && !old(isProcessing) && old(isRecording) ==> !isRecording && isProcessing
      ensures !disabled && !old(isProcessing) && !old(isRecording) ==>
        (isRecording == granted && !isProcessing)
    {
      if disabled || isProcessing {
        return;
      }
      if isRecording {
        StopRecording();
      } else {
        StartRecording(granted);
      }
    }
  }
}
