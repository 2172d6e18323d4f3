/** The 16-bit PCM WAV encoder: `createWavBlob` and `writeString` (app.js
    lines 250-294), with the little-endian DataView setters they call. The
    DataView over the file's ArrayBuffer is an array of bytes written in
    place; the Blob is modelled by the bytes it wraps. */
module Wav {
  import opened Shapes

  newtype byte = x: int | 0 <= x < 256

  // ---------------------------------------------------------------------
  // Byte layouts

  /** The two little-endian bytes DataView stores for `value` as a 16-bit
      integer: the value is first reduced modulo 2^16, which gives the same
      bytes for setUint16 and for setInt16 (two's complement). */
  function Le16(value: int): (b: seq<byte>)
    ensures |b| == 2
  {
    var u := value % 0x1_0000;
    [(u % 256) as byte, (u / 256) as byte]
  }

  /** The four little-endian bytes of setUint32: the value modulo 2^32. */
  function Le32(value: int): (b: seq<byte>)
    ensures |b| == 4
  {
    var u := value % 0x1_0000_0000;
    [(u % 256) as byte, (u / 256 % 256) as byte, (u / 0x1_0000 % 256) as byte, (u / 0x100_0000) as byte]
  }

  /** Reads an unsigned 16-bit little-endian value. */
  function ReadU16(b: seq<byte>): (x: int)
    requires |b| == 2
    ensures 0 <= x < 0x1_0000
  {
    b[0] as int + b[1] as int * 256
  }

  /** Reads a signed (two's complement) 16-bit little-endian value. */
  function ReadI16(b: seq<byte>): (x: int)
    requires |b| == 2
    ensures -0x8000 <= x < 0x8000
  {
    var u := ReadU16(b);
    if u < 0x8000 then u else u - 0x1_0000
  }

  /** Reads an unsigned 32-bit little-endian value. */
  function ReadU32(b: seq<byte>): (x: int)
    requires |b| == 4
    ensures 0 <= x < 0x1_0000_0000
  {
    b[0] as int + b[1] as int * 256 + b[2] as int * 0x1_0000 + b[3] as int * 0x100_0000
  }

  /** setUint16 stores the value modulo 2^16. */
  lemma ReadU16OfLe16(value: int)
    ensures ReadU16(Le16(value)) == value % 0x1_0000
  {
    var u := value % 0x1_0000;
    assert u == u % 256 + u / 256 * 256;
  }

  /** setInt16 of any 16-bit signed value reads back as that value. */
  lemma ReadI16OfLe16(value: int)
    requires -0x8000 <= value < 0x8000
    ensures ReadI16(Le16(value)) == value
  {
    ReadU16OfLe16(value);
  }

  /** setUint32 stores the value modulo 2^32. */
  lemma ReadU32OfLe32(value: int)
    ensures ReadU32(Le32(value)) == value % 0x1_0000_0000
  {
    var u := value % 0x1_0000_0000;
    var q1 := u / 256;
    var q2 := u / 0x1_0000;
    assert q2 == q1 / 256;
    assert u / 0x100_0000 == q2 / 256;
    assert u == u % 256 + q1 * 256;
    assert q1 == q1 % 256 + q2 * 256;
    assert q2 == q2 % 256 + u / 0x100_0000 * 256;
  }

  /** The bytes writeString stores for `s`: setUint8 of each UTF-16 code,
      which keeps it modulo 256. */
  function Latin(s: string): (b: seq<byte>)
    ensures |b| == |s|
  {
    seq(|s|, i requires 0 <= i < |s| => ((s[i] as int) % 256) as byte)
  }

  /** The characters whose codes are the bytes `b`. */
  function Text(b: seq<byte>): (s: string)
    ensures |s| == |b|
  {
    seq(|b|, i requires 0 <= i < |b| => (b[i] as int) as char)
  }

  /** Every character of `s` fits in one byte. */
  predicate OneByte(s: string) {
    forall i :: 0 <= i < |s| ==> s[i] as int < 256
  }

  /** writeString keeps a one-byte string intact: its bytes read back as
      the string. */
  lemma TextOfLatin(s: string)
    requires OneByte(s)
    ensures Text(Latin(s)) == s
  {
    forall i | 0 <= i < |s|
      ensures Text(Latin(s))[i] == s[i]
    {
      assert Latin(s)[i] as int == s[i] as int;
    }
  }

  // ---------------------------------------------------------------------
  // The file

  /** The 16-bit code of an audio sample: clamped to [-1, 1], scaled by
      32767 and rounded down. */
  function Quantise(s: real): (val: int)
    ensures -32767 <= val <= 32767
    ensures s >= 1.0 ==> val == 32767
    ensures s <= -1.0 ==> val == -32767
  {
    (Clamp(s) * 32767.0).Floor
  }

  /** Larger samples never get smaller codes. */
  lemma QuantiseMonotone(a: real, b: real)
    requires a <= b
    ensures Quantise(a) <= Quantise(b)
  {
    assert Clamp(a) <= Clamp(b);
    assert Clamp(a) * 32767.0 <= Clamp(b) * 32767.0;
  }

  /** The samples of `audio` as 16-bit little-endian codes, one after the
      other. */
  function Pcm(audio: seq<real>): (b: seq<byte>)
    ensures |b| == |audio| + |audio|
  {
    if audio == [] then [] else Pcm(audio[..|audio| - 1]) + Le16(Quantise(audio[|audio| - 1]))
  }

  /** The RIFF chunk descriptor of a file of `fileSize` bytes: the tag, the
      size of the rest of the file and the WAVE format tag. */
  function RiffDescriptor(fileSize: nat): (r: seq<byte>)
    ensures |r| == 12
  {
    Latin("RIFF") + Le32(fileSize - 8) + Latin("WAVE")
  }

  /** The first half of the "fmt " sub-chunk: its tag, its size, PCM
      format and one channel. */
  function FormatHead(): (f: seq<byte>)
    ensures |f| == 12
  {
    Latin("fmt ") + Le32(16) + Le16(1) + Le16(1)
  }

  /** The second half of the "fmt " sub-chunk: the sample rate, the byte
      rate (two bytes a sample), the block align and the bits per sample. */
  function FormatRates(sampleRate: nat): (f: seq<byte>)
    ensures |f| == 12
  {
    Le32(sampleRate) + Le32(sampleRate + sampleRate) + Le16(2) + Le16(16)
  }

  /** The head of the "data" sub-chunk: its tag and size. */
  function DataHead(dataSize: nat): (d: seq<byte>)
    ensures |d| == 8
  {
    Latin("data") + Le32(dataSize)
  }

  /** The 44-byte header of a mono 16-bit PCM file of `n` samples at
      `sampleRate`. */
  function Header(sampleRate: nat, n: nat): (h: seq<byte>)
    ensures |h| == 44
  {
    RiffDescriptor(44 + n + n) + FormatHead() + FormatRates(sampleRate) + DataHead(n + n)
  }

  /** The bytes of the file createWavBlob builds from the first `n` samples. */
  function WavFile(audio: seq<real>, sampleRate: nat, n: nat): (file: seq<byte>)
    requires n <= |audio|
    ensures |file| == 44 + n + n
  {
    Header(sampleRate, n) + Pcm(audio[..n])
  }

  lemma InFront(p: seq<byte>, q: seq<byte>, x: nat, y: nat)
    requires x <= y <= |p|
    ensures (p + q)[x..y] == p[x..y]
  {
  }

  lemma AtBack(p: seq<byte>, q: seq<byte>)
    ensures (p + q)[|p|..|p| + |q|] == q
  {
  }

  /** The descriptor reads back as "RIFF", the file size less 8 (modulo
      2^32) and "WAVE". */
  lemma RiffFields(fileSize: nat)
    ensures Text(RiffDescriptor(fileSize)[0..4]) == "RIFF"
    ensures ReadU32(RiffDescriptor(fileSize)[4..8]) == (fileSize - 8) % 0x1_0000_0000
    ensures Text(RiffDescriptor(fileSize)[8..12]) == "WAVE"
  {
    var r := RiffDescriptor(fileSize);
    assert r[0..4] == Latin("RIFF");
    assert r[4..8] == Le32(fileSize - 8);
    assert r[8..12] == Latin("WAVE");
    TextOfLatin("RIFF");
    TextOfLatin("WAVE");
    ReadU32OfLe32(fileSize - 8);
  }

  /** The first half of the format chunk reads back as "fmt ", size 16,
      PCM (1) and one channel. */
  lemma FormatHeadFields()
    ensures Text(FormatHead()[0..4]) == "fmt "
    ensures ReadU32(FormatHead()[4..8]) == 16
    ensures ReadU16(FormatHead()[8..10]) == 1
    ensures ReadU16(FormatHead()[10..12]) == 1
  {
    var f := FormatHead();
    AtBack(Latin("fmt ") + Le32(16) + Le16(1), Le16(1));
    assert f[8..10] == Le16(1);
    assert f[4..8] == Le32(16);
    assert f[0..4] == Latin("fmt ");
    TextOfLatin("fmt ");
    ReadU32OfLe32(16);
    ReadU16OfLe16(1);
  }

  /** The second half reads back as the sample rate, twice the sample rate
      (both modulo 2^32), a block align of 2 and 16 bits per sample. */
  lemma FormatRatesFields(sampleRate: nat)
    ensures ReadU32(FormatRates(sampleRate)[0..4]) == sampleRate % 0x1_0000_0000
    ensures ReadU32(FormatRates(sampleRate)[4..8]) == (sampleRate + sampleRate) % 0x1_0000_0000
    ensures ReadU16(FormatRates(sampleRate)[8..10]) == 2
    ensures ReadU16(FormatRates(sampleRate)[10..12]) == 16
  {
    var f := FormatRates(sampleRate);
    AtBack(Le32(sampleRate) + Le32(sampleRate + sampleRate) + Le16(2), Le16(16));
    assert f[8..10] == Le16(2);
    assert f[4..8] == Le32(sampleRate + sampleRate);
    assert f[0..4] == Le32(sampleRate);
    ReadU32OfLe32(sampleRate);
    ReadU32OfLe32(sampleRate + sampleRate);
    ReadU16OfLe16(2);
    ReadU16OfLe16(16);
  }

  /** The data head reads back as "data" and the data size (modulo 2^32). */
  lemma DataHeadFields(dataSize: nat)
    ensures Text(DataHead(dataSize)[0..4]) == "data"
    ensures ReadU32(DataHead(dataSize)[4..8]) == dataSize % 0x1_0000_0000
  {
    var d := DataHead(dataSize);
    assert d[0..4] == Latin("data");
    assert d[4..8] == Le32(dataSize);
    TextOfLatin("data");
    ReadU32OfLe32(dataSize);
  }

  /** What a reader of the file finds in its first 44 bytes: the four parts
      of the header, at offsets 0, 12, 24 and 36. */
  lemma HeaderParts(audio: seq<real>, sampleRate: nat, n: nat)
    requires n <= |audio|
    ensures WavFile(audio, sampleRate, n)[0..12] == RiffDescriptor(44 + n + n)
    ensures WavFile(audio, sampleRate, n)[12..24] == FormatHead()
    ensures WavFile(audio, sampleRate, n)[24..36] == FormatRates(sampleRate)
    ensures WavFile(audio, sampleRate, n)[36..44] == DataHead(n + n)
  {
    var r, fh, fr, d := RiffDescriptor(44 + n + n), FormatHead(), FormatRates(sampleRate), DataHead(n + n);
    var h := Header(sampleRate, n);
    var data := Pcm(audio[..n]);
    InFront(h, data, 0, 12);
    InFront(h, data, 12, 24);
    InFront(h, data, 24, 36);
    InFront(h, data, 36, 44);
    AtBack(r + fh + fr, d);
    InFront(r + fh + fr, d, 0, 12);
    InFront(r + fh + fr, d, 12, 24);
    AtBack(r + fh, fr);
    InFront(r + fh, fr, 0, 12);
    AtBack(r, fh);
    InFront(r, fh, 0, 12);
  }

  /** The two size fields agree with the file: the RIFF size is the length
      of the file less 8 and the data size the length less the 44 header
      bytes (both modulo 2^32). */
  lemma SizesMatchFile(audio: seq<real>, sampleRate: nat, n: nat)
    requires n <= |audio|
    ensures ReadU32(WavFile(audio, sampleRate, n)[4..8]) == (|WavFile(audio, sampleRate, n)| - 8) % 0x1_0000_0000
    ensures ReadU32(WavFile(audio, sampleRate, n)[40..44]) == (|WavFile(audio, sampleRate, n)| - 44) % 0x1_0000_0000
  {
    var file := WavFile(audio, sampleRate, n);
    HeaderParts(audio, sampleRate, n);
    RiffFields(44 + n + n);
    DataHeadFields(n + n);
    assert file[4..8] == file[0..12][4..8];
    assert file[40..44] == file[36..44][4..8];
  }

  /** Sample `i` of the audio is stored at bytes 2 i, 2 i + 1 of the PCM
      data. */
  lemma {:induction false} PcmSample(audio: seq<real>, i: nat)
    requires i < |audio|
    ensures Pcm(audio)[i + i .. i + i + 2] == Le16(Quantise(audio[i]))
  {
    var init := audio[..|audio| - 1];
    var last := Le16(Quantise(audio[|audio| - 1]));
    assert Pcm(audio) == Pcm(init) + last;
    if i < |audio| - 1 {
      PcmSample(init, i);
      assert init[i] == audio[i];
      assert (Pcm(init) + last)[i + i .. i + i + 2] == Pcm(init)[i + i .. i + i + 2];
    } else {
      assert (Pcm(init) + last)[|Pcm(init)| ..] == last;
    }
  }

  /** Sample `i` of the file, read back as a signed 16-bit value at byte
      44 + 2 i, is the quantised audio sample `i`. */
  lemma SampleReadsBack(audio: seq<real>, sampleRate: nat, n: nat, i: nat)
    requires n <= |audio| && i < n
    ensures ReadI16(WavFile(audio, sampleRate, n)[44 + i + i .. 44 + i + i + 2]) == Quantise(audio[i])
  {
    var h := Header(sampleRate, n);
    var data := Pcm(audio[..n]);
    PcmSample(audio[..n], i);
    assert (h + data)[44 + i + i .. 44 + i + i + 2] == data[i + i .. i + i + 2];
    ReadI16OfLe16(Quantise(audio[i]));
  }

  // ---------------------------------------------------------------------
  // DataView writes

  /** view.setUint8(offset, value). */
  method SetUint8(view: array<byte>, offset: nat, value: int)
    requires offset < view.Length
    modifies view
    ensures view[..offset + 1] == old(view[..offset]) + [(value % 256) as byte]
    ensures forall m :: offset + 1 <= m <= view.Length ==> view[m..] == old(view[m..])
  {
    view[offset] := (value % 256) as byte;
  }

  /** view.setUint16(offset, value, true), and setInt16 likewise. */
  method SetUint16(view: array<byte>, offset: nat, value: int)
    requires offset + 2 <= view.Length
    modifies view
    ensures view[..offset + 2] == old(view[..offset]) + Le16(value)
    ensures forall m :: offset + 2 <= m <= view.Length ==> view[m..] == old(view[m..])
  {
    var b := Le16(value);
    view[offset] := b[0];
    view[offset + 1] := b[1];
  }

  /** view.setUint32(offset, value, true). */
  method SetUint32(view: array<byte>, offset: nat, value: int)
    requires offset + 4 <= view.Length
    modifies view
    ensures view[..offset + 4] == old(view[..offset]) + Le32(value)
    ensures forall m :: offset + 4 <= m <= view.Length ==> view[m..] == old(view[m..])
  {
    var b := Le32(value);
    view[offset] := b[0];
    view[offset + 1] := b[1];
    view[offset + 2] := b[2];
    view[offset + 3] := b[3];
  }

  /** writeString(view, offset, string): the code of each character, one
      byte each. */
  method WriteString(view: array<byte>, offset: nat, s: string)
    requires offset + |s| <= view.Length
    modifies view
    ensures view[..offset + |s|] == old(view[..offset]) + Latin(s)
    ensures forall m :: offset + |s| <= m <= view.Length ==> view[m..] == old(view[m..])
  {
    for i := 0 to |s|
      invariant view[..offset + i] == old(view[..offset]) + Latin(s)[..i]
      invariant forall m :: offset + i <= m <= view.Length ==> view[m..] == old(view[m..])
    {
      SetUint8(view, offset + i, s[i] as int);
      assert Latin(s)[..i + 1] == Latin(s)[..i] + [Latin(s)[i]];
    }
  }

  lemma Regroup(x: seq<byte>, a: seq<byte>, b: seq<byte>)
    ensures (x + a) + b == x + (a + b)
  {
  }

  /** The first three writes of createWavBlob: the RIFF chunk descriptor. */
  method WriteRiffDescriptor(view: array<byte>, fileSize: nat)
    requires 12 <= view.Length
    modifies view
    ensures view[..12] == RiffDescriptor(fileSize)
    ensures view[12..] == old(view[12..])
  {
    WriteString(view, 0, "RIFF");
    SetUint32(view, 4, fileSize - 8);
    WriteString(view, 8, "WAVE");
  }

  /** The next four writes: the first half of the "fmt " sub-chunk, at
      offset 12. */
  method WriteFormatHead(view: array<byte>)
    requires 24 <= view.Length
    modifies view
    ensures view[..24] == old(view[..12]) + FormatHead()
    ensures forall m :: 24 <= m <= view.Length ==> view[m..] == old(view[m..])
  {
    ghost var head := view[..12];
    WriteString(view, 12, "fmt ");
    SetUint32(view, 16, 16);
    Regroup(head, Latin("fmt "), Le32(16));
    SetUint16(view, 20, 1);
    Regroup(head, Latin("fmt ") + Le32(16), Le16(1));
    SetUint16(view, 22, 1);
    Regroup(head, Latin("fmt ") + Le32(16) + Le16(1), Le16(1));
  }

  /** The four writes after them: the second half of the "fmt " sub-chunk, at
      offset 24. */
  method WriteFormatRates(view: array<byte>, sampleRate: nat)
    requires 36 <= view.Length
    modifies view
    ensures view[..36] == old(view[..24]) + FormatRates(sampleRate)
    ensures forall m :: 36 <= m <= view.Length ==> view[m..] == old(view[m..])
  {
    ghost var head := view[..24];
    SetUint32(view, 24, sampleRate);
    SetUint32(view, 28, sampleRate * 2);
    Regroup(head, Le32(sampleRate), Le32(sampleRate + sampleRate));
    SetUint16(view, 32, 2);
    Regroup(head, Le32(sampleRate) + Le32(sampleRate + sampleRate), Le16(2));
    SetUint16(view, 34, 16);
    Regroup(head, Le32(sampleRate) + Le32(sampleRate + sampleRate) + Le16(2), Le16(16));
  }

  /** The last two header writes: the head of the "data" sub-chunk at
      offset 36. */
  method WriteDataHead(view: array<byte>, dataSize: nat)
    requires 44 <= view.Length
    modifies view
    ensures view[..44] == old(view[..36]) + DataHead(dataSize)
    ensures view[44..] == old(view[44..])
  {
    ghost var head := view[..36];
    WriteString(view, 36, "data");
    SetUint32(view, 40, dataSize);
    Regroup(head, Latin("data"), Le32(dataSize));
  }

  /** createWavBlob(audioData, sampleRate, totalSamples): the header, then
      each of the first `totalSamples` samples as a 16-bit code. */
  method CreateWav(audioData: seq<real>, sampleRate: nat, totalSamples: nat) returns (blob: seq<byte>)
    requires totalSamples <= |audioData|
    ensures blob == WavFile(audioData, sampleRate, totalSamples)
  {
    var dataSize := totalSamples * 2;
    var fileSize := 44 + dataSize;
    var view := new byte[fileSize](_ => 0);

    WriteRiffDescriptor(view, fileSize);
    WriteFormatHead(view);
    WriteFormatRates(view, sampleRate);
    WriteDataHead(view, dataSize);
    assert view[..44] == Header(sampleRate, totalSamples);

    var offset := 44;
    for i := 0 to totalSamples
      invariant offset == 44 + i + i
      invariant view[..offset] == Header(sampleRate, totalSamples) + Pcm(audioData[..i])
    {
      var s := Clamp(audioData[i]);
      var val := (s * 32767.0).Floor;
      SetUint16(view, offset, val);
      assert audioData[..i + 1][..i] == audioData[..i];
      Regroup(Header(sampleRate, totalSamples), Pcm(audioData[..i]), Le16(val));
      offset := offset + 2;
    }
    assert view[..] == view[..offset];
    blob := view[..];
  }
}
