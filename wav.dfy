/** The WAV serialiser of the processor (audio-processor.js:381-477):
    a 44-byte RIFF/WAVE header with a PCM `fmt ` chunk, all fields
    little-endian, followed by interleaved 16-bit samples. */
module Wav {
  import opened Audio
  import opened JsNumber

  type byte = x: int | 0 <= x < 0x100

  datatype WavError =
    | UnsupportedBitDepth    // `throw new Error('Unsupported bit depth')`
    | AssignmentToConstant   // the TypeError raised by `offset += 2` on a `const`

  const HeaderSize: nat := 44

  // ---------------------------------------------------------------------
  // Little-endian integers, as DataView stores and reads them
  // ---------------------------------------------------------------------

  /** The `width` bytes that DataView.setUintN(offset, v, true) stores:
      v modulo 256^width, least significant byte first. */
  function LittleEndian(v: nat, width: nat): (r: seq<byte>)
    ensures |r| == width
    decreases width
  {
    if width == 0 then [] else [v % 256] + LittleEndian(v / 256, width - 1)
  }

  /** The unsigned value little-endian bytes stand for (DataView.getUintN). */
  function FromLittleEndian(bs: seq<byte>): nat
  {
    if bs == [] then 0 else bs[0] + 256 * FromLittleEndian(bs[1..])
  }

  function Pow256(k: nat): (r: nat)
    ensures r >= 1
  {
    if k == 0 then 1 else 256 * Pow256(k - 1)
  }

  /** Reading back what setUintN wrote gives the value modulo 2^(8*width). */
  lemma {:induction false} LittleEndianRoundTrip(v: nat, width: nat)
    ensures FromLittleEndian(LittleEndian(v, width)) == v % Pow256(width)
  {
    if width > 0 {
      var bs := LittleEndian(v, width);
      assert bs[1..] == LittleEndian(v / 256, width - 1);
      LittleEndianRoundTrip(v / 256, width - 1);
      NestedMod(v, Pow256(width - 1));
    }
  }

  /** Byte i of what setUintN stores is digit i of v in base 256: the
      least significant byte comes first. */
  lemma {:induction false} LittleEndianByte(v: nat, width: nat, i: nat)
    requires i < width
    ensures LittleEndian(v, width)[i] == (v / Pow256(i)) % 256
  {
    if i > 0 {
      LittleEndianByte(v / 256, width - 1, i - 1);
      NestedDiv(v, Pow256(i - 1));
    }
  }

  lemma NestedDiv(v: nat, p: nat)
    requires p >= 1
    ensures (v / 256) / p == v / (256 * p)
  {
    var q, r := v / 256, v % 256;
    var hi, lo := q / p, q % p;
    assert q == p * hi + lo;
    assert v == (256 * p) * hi + (256 * lo + r);
    UniqueMod(v, 256 * p, hi, 256 * lo + r);
  }

  lemma NestedMod(v: nat, p: nat)
    requires p >= 1
    ensures v % 256 + 256 * ((v / 256) % p) == v % (256 * p)
  {
    var q, r := v / 256, v % 256;
    var hi, lo := q / p, q % p;
    assert q == p * hi + lo;
    assert v == (256 * p) * hi + (256 * lo + r);
    UniqueMod(v, 256 * p, hi, 256 * lo + r);
  }

  lemma UniqueMod(v: int, m: int, q: int, r: int)
    requires m > 0 && 0 <= r < m && v == m * q + r
    ensures v % m == r && v / m == q
  {
    var q', r' := v / m, v % m;
    assert m * (q - q') == r' - r;
    if q > q' {
      AtLeastOnce(m, q - q');
    } else if q < q' {
      AtLeastOnce(m, q' - q);
    }
  }

  lemma AtLeastOnce(m: int, k: int)
    requires m > 0 && k >= 1
    ensures m * k >= m
  {
  }

  /** setUint16 / setUint32 with an integer argument (ToUint16 / ToUint32
      reduce it modulo 2^16 / 2^32). */
  function U16(v: nat): (r: seq<byte>)
    ensures |r| == 2
  {
    LittleEndian(v, 2)
  }

  function U32(v: nat): (r: seq<byte>)
    ensures |r| == 4
  {
    LittleEndian(v, 4)
  }

  /** setInt16 with an integer argument: two's complement modulo 2^16. */
  function I16(v: int): (r: seq<byte>)
    ensures |r| == 2
  {
    LittleEndian(v % 0x1_0000, 2)
  }

  /** setUint8 of each `charCodeAt` of a string (writeString). */
  function Ascii(s: string): (r: seq<byte>)
    ensures |r| == |s|
  {
    seq(|s|, i requires 0 <= i < |s| => (s[i] as int) % 256)
  }

  // ---------------------------------------------------------------------
  // Sample quantisation (audio-processor.js:457-458)
  // ---------------------------------------------------------------------

  /** The clamp `Math.max(-1, Math.min(1, x))`. */
  function Clamp(x: real): (s: real)
    ensures -1.0 <= s <= 1.0
    ensures -1.0 <= x <= 1.0 ==> s == x
  {
    Max(-1.0, Min(1.0, x))
  }

  /** The integer setInt16 stores for a sample: the clamped value scaled by
      32768 when negative and by 32767 otherwise, truncated toward zero.
      It always fits in 16 signed bits, so nothing wraps. */
  function Quantise(x: real): (q: int)
    ensures -32768 <= q <= 32767
    ensures (q < 0 ==> Clamp(x) < 0.0) && (q > 0 ==> Clamp(x) > 0.0)
  {
    var s := Clamp(x);
    Trunc(if s < 0.0 then s * 32768.0 else s * 32767.0)
  }

  /** The reader's inverse scaling of a stored 16-bit sample. */
  function Dequantise(q: int): real
  {
    if q < 0 then q as real / 32768.0 else q as real / 32767.0
  }

  /** Quantisation moves a sample toward zero by less than one step:
      reading it back recovers the clamped sample within 1/32767. */
  lemma QuantisationError(x: real)
    ensures var s, back := Clamp(x), Dequantise(Quantise(x));
            -1.0 / 32767.0 < back - s <= 0.0 || 0.0 <= back - s < 1.0 / 32768.0
  {
    var s := Clamp(x);
    var q := Quantise(x);
    if s < 0.0 {
      assert q as real - 1.0 < s * 32768.0 <= q as real;
      if q < 0 {
        assert q as real / 32768.0 - 1.0 / 32768.0 < s <= q as real / 32768.0;
      } else {
        assert q == 0;
        assert -1.0 / 32768.0 < s;
      }
    } else {
      assert q as real <= s * 32767.0 < q as real + 1.0;
      assert q as real / 32767.0 <= s < q as real / 32767.0 + 1.0 / 32767.0;
    }
  }

  // ---------------------------------------------------------------------
  // The file layout
  // ---------------------------------------------------------------------

  /** The RIFF chunk descriptor: "RIFF", the RIFF size 36 + dataSize, "WAVE". */
  function RiffDescriptor(dataSize: nat): (b: seq<byte>)
    ensures |b| == 12
  {
    Ascii("RIFF") + U32(36 + dataSize) + Ascii("WAVE")
  }

  /** The PCM `fmt ` chunk: size 16, format code, channels, sample rate,
      byte rate = rate * block align, block align = channels * 2, 16 bits. */
  function FmtChunk(format: nat, sampleRate: nat, numChannels: nat): (b: seq<byte>)
    ensures |b| == 24
  {
    Ascii("fmt ") + U32(16) + U16(format) + U16(numChannels) + U32(sampleRate)
    + U32(sampleRate * (numChannels * 2)) + U16(numChannels * 2) + U16(16)
  }

  /** The `data` chunk header: "data" and the byte count that follows. */
  function DataChunkHeader(dataSize: nat): (b: seq<byte>)
    ensures |b| == 8
  {
    Ascii("data") + U32(dataSize)
  }

  /** The 44 header bytes for `dataSize` bytes of 16-bit PCM. */
  function Header(dataSize: nat, format: nat, sampleRate: nat, numChannels: nat): (h: seq<byte>)
    ensures |h| == HeaderSize
  {
    RiffDescriptor(dataSize) + FmtChunk(format, sampleRate, numChannels) + DataChunkHeader(dataSize)
  }

  /** Appending the `fmt ` fields one by one builds the `fmt ` chunk. */
  lemma AppendFields(p: seq<byte>, a: seq<byte>, b: seq<byte>, c: seq<byte>, d: seq<byte>,
                     e: seq<byte>, f: seq<byte>, g: seq<byte>, h: seq<byte>)
    ensures p + a + b + c + d + e + f + g + h == p + (a + b + c + d + e + f + g + h)
  {
  }

  /** Sample i occupies bytes 2i and 2i+1 of the data chunk. */
  function SampleData(samples: seq<real>): (d: seq<byte>)
    ensures |d| == 2 * |samples|
  {
    seq(2 * |samples|, j requires 0 <= j < 2 * |samples| => I16(Quantise(samples[j / 2]))[j % 2])
  }

  /** The complete 16-bit PCM file for the given samples. */
  function WavFile(samples: seq<real>, format: nat, sampleRate: nat, numChannels: nat): (f: seq<byte>)
    ensures |f| == HeaderSize + 2 * |samples|
  {
    Header(2 * |samples|, format, sampleRate, numChannels) + SampleData(samples)
  }

  // Field readers, as a WAV decoder applies them

  function U16At(f: seq<byte>, offset: nat): nat
    requires offset + 2 <= |f|
  {
    FromLittleEndian(f[offset..offset + 2])
  }

  function U32At(f: seq<byte>, offset: nat): nat
    requires offset + 4 <= |f|
  {
    FromLittleEndian(f[offset..offset + 4])
  }

  /** The signed 16-bit value at `offset` (DataView.getInt16). */
  function Int16At(f: seq<byte>, offset: nat): int
    requires offset + 2 <= |f|
  {
    var u := U16At(f, offset);
    if u >= 0x8000 then u - 0x1_0000 else u
  }

  /** The k-th stored sample, counting from the end of the header. */
  function SampleAt(f: seq<byte>, k: nat): int
    requires HeaderSize + 2 * k + 2 <= |f|
  {
    Int16At(f, HeaderSize + 2 * k)
  }

  /** Where each field of the header sits. */
  lemma HeaderSlices(dataSize: nat, format: nat, sampleRate: nat, numChannels: nat)
    ensures var h := Header(dataSize, format, sampleRate, numChannels);
      && h[0..4] == Ascii("RIFF") && h[4..8] == U32(36 + dataSize) && h[8..12] == Ascii("WAVE")
      && h[12..16] == Ascii("fmt ") && h[16..20] == U32(16) && h[20..22] == U16(format)
      && h[22..24] == U16(numChannels) && h[24..28] == U32(sampleRate)
      && h[28..32] == U32(sampleRate * (numChannels * 2)) && h[32..34] == U16(numChannels * 2)
      && h[34..36] == U16(16) && h[36..40] == Ascii("data") && h[40..44] == U32(dataSize)
  {
    var h := Header(dataSize, format, sampleRate, numChannels);
    RiffSlices(h, dataSize, format, sampleRate, numChannels);
    FmtSlices(h, dataSize, format, sampleRate, numChannels);
    DataSlices(h, dataSize, format, sampleRate, numChannels);
  }

  lemma RiffSlices(h: seq<byte>, dataSize: nat, format: nat, sampleRate: nat, numChannels: nat)
    requires h == Header(dataSize, format, sampleRate, numChannels)
    ensures h[0..4] == Ascii("RIFF") && h[4..8] == U32(36 + dataSize) && h[8..12] == Ascii("WAVE")
  {
    var riff := RiffDescriptor(dataSize);
    assert h[..12] == riff;
    assert h[0..4] == riff[0..4];
    assert h[4..8] == riff[4..8];
    assert h[8..12] == riff[8..12];
  }

  lemma FmtSlices(h: seq<byte>, dataSize: nat, format: nat, sampleRate: nat, numChannels: nat)
    requires h == Header(dataSize, format, sampleRate, numChannels)
    ensures h[12..16] == Ascii("fmt ") && h[16..20] == U32(16) && h[20..22] == U16(format)
      && h[22..24] == U16(numChannels) && h[24..28] == U32(sampleRate)
      && h[28..32] == U32(sampleRate * (numChannels * 2)) && h[32..34] == U16(numChannels * 2)
      && h[34..36] == U16(16)
  {
    var fmt := FmtChunk(format, sampleRate, numChannels);
    assert h[12..36] == fmt;
    FmtFields(format, sampleRate, numChannels);
    Shifted(h, fmt, 12, 0, 4);
    Shifted(h, fmt, 12, 4, 8);
    Shifted(h, fmt, 12, 8, 10);
    Shifted(h, fmt, 12, 10, 12);
    Shifted(h, fmt, 12, 12, 16);
    Shifted(h, fmt, 12, 16, 20);
    Shifted(h, fmt, 12, 20, 22);
    Shifted(h, fmt, 12, 22, 24);
  }

  /** Where each field of the `fmt ` chunk sits within it. */
  lemma FmtFields(format: nat, sampleRate: nat, numChannels: nat)
    ensures var fmt := FmtChunk(format, sampleRate, numChannels);
      && fmt[0..4] == Ascii("fmt ") && fmt[4..8] == U32(16) && fmt[8..10] == U16(format)
      && fmt[10..12] == U16(numChannels) && fmt[12..16] == U32(sampleRate)
      && fmt[16..20] == U32(sampleRate * (numChannels * 2)) && fmt[20..22] == U16(numChannels * 2)
      && fmt[22..24] == U16(16)
  {
    var a := Ascii("fmt ") + U32(16) + U16(format) + U16(numChannels);
    var b := U32(sampleRate) + U32(sampleRate * (numChannels * 2)) + U16(numChannels * 2) + U16(16);
    var fmt := FmtChunk(format, sampleRate, numChannels);
    Regroup(Ascii("fmt "), U32(16), U16(format), U16(numChannels),
            U32(sampleRate), U32(sampleRate * (numChannels * 2)), U16(numChannels * 2), U16(16));
    assert fmt[0..12] == a && fmt[12..24] == b;
    Parts4(Ascii("fmt "), U32(16), U16(format), U16(numChannels));
    Parts4(U32(sampleRate), U32(sampleRate * (numChannels * 2)), U16(numChannels * 2), U16(16));
    Shifted(fmt, a, 0, 0, 4);
    Shifted(fmt, a, 0, 4, 8);
    Shifted(fmt, a, 0, 8, 10);
    Shifted(fmt, a, 0, 10, 12);
    Shifted(fmt, b, 12, 0, 4);
    Shifted(fmt, b, 12, 4, 8);
    Shifted(fmt, b, 12, 8, 10);
    Shifted(fmt, b, 12, 10, 12);
  }

  lemma Regroup<T>(a: seq<T>, b: seq<T>, c: seq<T>, d: seq<T>, e: seq<T>, f: seq<T>, g: seq<T>, h: seq<T>)
    ensures a + b + c + d + e + f + g + h == (a + b + c + d) + (e + f + g + h)
  {
  }

  /** The four parts of a + b + c + d, by position. */
  lemma Parts4<T>(a: seq<T>, b: seq<T>, c: seq<T>, d: seq<T>)
    ensures var s, i, j, k := a + b + c + d, |a|, |a| + |b|, |a| + |b| + |c|;
      s[0..i] == a && s[i..j] == b && s[j..k] == c && s[k..|s|] == d
  {
  }

  /** A slice of a sequence embedded at `off` is a slice of the host. */
  lemma Shifted<T>(h: seq<T>, p: seq<T>, off: nat, a: nat, b: nat)
    requires off + |p| <= |h| && h[off..off + |p|] == p && a <= b <= |p|
    ensures h[off + a..off + b] == p[a..b]
  {
    forall i | 0 <= i < b - a
      ensures h[off + a..off + b][i] == p[a..b][i]
    {
      assert h[off + a..off + b][i] == h[off + a + i];
      assert h[off..off + |p|][a + i] == h[off + a + i];
    }
  }

  lemma DataSlices(h: seq<byte>, dataSize: nat, format: nat, sampleRate: nat, numChannels: nat)
    requires h == Header(dataSize, format, sampleRate, numChannels)
    ensures h[36..40] == Ascii("data") && h[40..44] == U32(dataSize)
  {
    var data := DataChunkHeader(dataSize);
    assert h[36..] == data;
    assert h[36..40] == data[0..4];
    assert h[40..44] == data[4..8];
  }

  /** Reading a field back gives the stored value modulo 2^(8*width). */
  lemma ReadField(f: seq<byte>, offset: nat, v: nat, width: nat)
    requires offset + width <= |f| && f[offset..offset + width] == LittleEndian(v, width)
    ensures FromLittleEndian(f[offset..offset + width]) == v % Pow256(width)
  {
    LittleEndianRoundTrip(v, width);
  }

  /** The encoded file has 44 + 2n bytes and its header reads back as a
      WAVE file with a PCM `fmt ` chunk for the given parameters. */
  lemma HeaderFields(samples: seq<real>, format: nat, sampleRate: nat, numChannels: nat)
    ensures var f, n := WavFile(samples, format, sampleRate, numChannels), |samples|;
      && |f| == 44 + 2 * n
      && f[0..4] == [0x52, 0x49, 0x46, 0x46]     // "RIFF"
      && U32At(f, 4) == (36 + 2 * n) % 0x1_0000_0000
      && f[8..12] == [0x57, 0x41, 0x56, 0x45]    // "WAVE"
      && f[12..16] == [0x66, 0x6d, 0x74, 0x20]   // "fmt "
      && U32At(f, 16) == 16
      && U16At(f, 20) == format % 0x1_0000
      && U16At(f, 22) == numChannels % 0x1_0000
      && U32At(f, 24) == sampleRate % 0x1_0000_0000
      && U32At(f, 28) == (sampleRate * (numChannels * 2)) % 0x1_0000_0000
      && U16At(f, 32) == (numChannels * 2) % 0x1_0000
      && U16At(f, 34) == 16
      && f[36..40] == [0x64, 0x61, 0x74, 0x61]   // "data"
      && U32At(f, 40) == (2 * n) % 0x1_0000_0000
  {
    var n := |samples|;
    var h := Header(2 * n, format, sampleRate, numChannels);
    var f := WavFile(samples, format, sampleRate, numChannels);
    HeaderPrefix(samples, format, sampleRate, numChannels);
    HeaderReads(h, 2 * n, format, sampleRate, numChannels);
    SameHeader(f, h);
  }

  /** A file that starts with the header h reads every header field as h does. */
  lemma SameHeader(f: seq<byte>, h: seq<byte>)
    requires |h| == HeaderSize <= |f| && f[..HeaderSize] == h
    ensures f[0..4] == h[0..4] && f[8..12] == h[8..12] && f[12..16] == h[12..16] && f[36..40] == h[36..40]
    ensures U32At(f, 4) == U32At(h, 4) && U32At(f, 16) == U32At(h, 16) && U32At(f, 24) == U32At(h, 24)
      && U32At(f, 28) == U32At(h, 28) && U32At(f, 40) == U32At(h, 40)
    ensures U16At(f, 20) == U16At(h, 20) && U16At(f, 22) == U16At(h, 22)
      && U16At(f, 32) == U16At(h, 32) && U16At(f, 34) == U16At(h, 34)
  {
    Shifted(f, h, 0, 0, 4);
    Shifted(f, h, 0, 4, 8);
    Shifted(f, h, 0, 8, 12);
    Shifted(f, h, 0, 12, 16);
    Shifted(f, h, 0, 16, 20);
    Shifted(f, h, 0, 20, 22);
    Shifted(f, h, 0, 22, 24);
    Shifted(f, h, 0, 24, 28);
    Shifted(f, h, 0, 28, 32);
    Shifted(f, h, 0, 32, 34);
    Shifted(f, h, 0, 34, 36);
    Shifted(f, h, 0, 36, 40);
    Shifted(f, h, 0, 40, 44);
  }

  lemma HeaderPrefix(samples: seq<real>, format: nat, sampleRate: nat, numChannels: nat)
    ensures var f := WavFile(samples, format, sampleRate, numChannels);
      |f| == HeaderSize + 2 * |samples| &&
      f[..HeaderSize] == Header(2 * |samples|, format, sampleRate, numChannels)
  {
  }

  lemma HeaderReads(h: seq<byte>, dataSize: nat, format: nat, sampleRate: nat, numChannels: nat)
    requires h == Header(dataSize, format, sampleRate, numChannels)
    ensures && h[0..4] == [0x52, 0x49, 0x46, 0x46] && h[8..12] == [0x57, 0x41, 0x56, 0x45]
      && h[12..16] == [0x66, 0x6d, 0x74, 0x20] && h[36..40] == [0x64, 0x61, 0x74, 0x61]
    ensures && U32At(h, 4) == (36 + dataSize) % 0x1_0000_0000
      && U32At(h, 16) == 16
      && U16At(h, 20) == format % 0x1_0000
      && U16At(h, 22) == numChannels % 0x1_0000
      && U32At(h, 24) == sampleRate % 0x1_0000_0000
      && U32At(h, 28) == (sampleRate * (numChannels * 2)) % 0x1_0000_0000
      && U16At(h, 32) == (numChannels * 2) % 0x1_0000
      && U16At(h, 34) == 16
      && U32At(h, 40) == dataSize % 0x1_0000_0000
  {
    HeaderSlices(dataSize, format, sampleRate, numChannels);
    AsciiTags();
    Powers();
    SizeReads(h, dataSize);
    FormatReads(h, format, numChannels);
    RateReads(h, sampleRate, numChannels);
  }

  lemma AsciiTags()
    ensures Ascii("RIFF") == [0x52, 0x49, 0x46, 0x46] && Ascii("WAVE") == [0x57, 0x41, 0x56, 0x45]
    ensures Ascii("fmt ") == [0x66, 0x6d, 0x74, 0x20] && Ascii("data") == [0x64, 0x61, 0x74, 0x61]
  {
  }

  lemma Powers()
    ensures Pow256(2) == 0x1_0000 && Pow256(4) == 0x1_0000_0000
  {
  }

  lemma SizeReads(h: seq<byte>, dataSize: nat)
    requires |h| == HeaderSize && h[4..8] == U32(36 + dataSize) && h[40..44] == U32(dataSize)
    requires h[16..20] == U32(16) && h[34..36] == U16(16)
    ensures U32At(h, 4) == (36 + dataSize) % 0x1_0000_0000 && U32At(h, 40) == dataSize % 0x1_0000_0000
    ensures U32At(h, 16) == 16 && U16At(h, 34) == 16
  {
    Powers();
    ReadField(h, 4, 36 + dataSize, 4);
    ReadField(h, 40, dataSize, 4);
    ReadField(h, 16, 16, 4);
    ReadField(h, 34, 16, 2);
  }

  lemma FormatReads(h: seq<byte>, format: nat, numChannels: nat)
    requires |h| == HeaderSize && h[20..22] == U16(format) && h[22..24] == U16(numChannels)
    requires h[32..34] == U16(numChannels * 2)
    ensures U16At(h, 20) == format % 0x1_0000 && U16At(h, 22) == numChannels % 0x1_0000
    ensures U16At(h, 32) == (numChannels * 2) % 0x1_0000
  {
    Powers();
    ReadField(h, 20, format, 2);
    ReadField(h, 22, numChannels, 2);
    ReadField(h, 32, numChannels * 2, 2);
  }

  lemma RateReads(h: seq<byte>, sampleRate: nat, numChannels: nat)
    requires |h| == HeaderSize && h[24..28] == U32(sampleRate)
    requires h[28..32] == U32(sampleRate * (numChannels * 2))
    ensures U32At(h, 24) == sampleRate % 0x1_0000_0000
    ensures U32At(h, 28) == (sampleRate * (numChannels * 2)) % 0x1_0000_0000
  {
    Powers();
    ReadField(h, 24, sampleRate, 4);
    ReadField(h, 28, sampleRate * (numChannels * 2), 4);
  }

  /** Reading sample k back from the file gives exactly its quantised value. */
  lemma SampleRoundTrip(samples: seq<real>, format: nat, sampleRate: nat, numChannels: nat, k: nat)
    requires k < |samples|
    ensures var f := WavFile(samples, format, sampleRate, numChannels);
      HeaderSize + 2 * k + 2 <= |f| && SampleAt(f, k) == Quantise(samples[k])
  {
    var f := WavFile(samples, format, sampleRate, numChannels);
    SampleBytes(samples, format, sampleRate, numChannels, k);
    Int16RoundTrip(f, HeaderSize + 2 * k, Quantise(samples[k]));
  }

  /** Sample k is stored at bytes 44 + 2k and 45 + 2k. */
  lemma SampleBytes(samples: seq<real>, format: nat, sampleRate: nat, numChannels: nat, k: nat)
    requires k < |samples|
    ensures var f := WavFile(samples, format, sampleRate, numChannels);
      HeaderSize + 2 * k + 2 <= |f| &&
      f[HeaderSize + 2 * k..HeaderSize + 2 * k + 2] == I16(Quantise(samples[k]))
  {
    var f := WavFile(samples, format, sampleRate, numChannels);
    var d := SampleData(samples);
    assert f[HeaderSize..HeaderSize + |d|] == d;
    SampleDataAt(samples, k);
    Shifted(f, d, HeaderSize, 2 * k, 2 * k + 2);
  }

  lemma SampleDataAt(samples: seq<real>, k: nat)
    requires k < |samples|
    ensures SampleData(samples)[2 * k..2 * k + 2] == I16(Quantise(samples[k]))
  {
    var d := SampleData(samples);
    var b := I16(Quantise(samples[k]));
    EvenOdd(k);
    assert d[2 * k] == b[0];
    assert d[2 * k + 1] == b[1];
  }

  /** Positions 2k and 2k+1 both belong to frame k. */
  lemma EvenOdd(k: nat)
    ensures (2 * k) / 2 == k && (2 * k) % 2 == 0
    ensures (2 * k + 1) / 2 == k && (2 * k + 1) % 2 == 1
  {
  }

  /** A 16-bit two's complement store reads back unchanged. */
  lemma Int16RoundTrip(f: seq<byte>, offset: nat, q: int)
    requires -32768 <= q <= 32767
    requires offset + 2 <= |f| && f[offset..offset + 2] == I16(q)
    ensures Int16At(f, offset) == q
  {
    Powers();
    ReadField(f, offset, q % 0x1_0000, 2);
  }

  /** Silence encodes as zero bytes after the header. */
  lemma SilenceEncodesAsZeros(samples: seq<real>, format: nat, sampleRate: nat, numChannels: nat)
    requires forall i :: 0 <= i < |samples| ==> samples[i] == 0.0
    ensures var f := WavFile(samples, format, sampleRate, numChannels);
      |f| == HeaderSize + 2 * |samples| &&
      forall j :: HeaderSize <= j < |f| ==> f[j] == 0
  {
    var f := WavFile(samples, format, sampleRate, numChannels);
    var d := SampleData(samples);
    SilentData(samples);
    assert forall j :: HeaderSize <= j < |f| ==> f[j] == d[j - HeaderSize];
  }

  lemma SilentData(samples: seq<real>)
    requires forall i :: 0 <= i < |samples| ==> samples[i] == 0.0
    ensures forall j :: 0 <= j < |SampleData(samples)| ==> SampleData(samples)[j] == 0
  {
    var d := SampleData(samples);
    assert I16(0) == [0, 0];
    forall j | 0 <= j < |d|
      ensures d[j] == 0
    {
      var k := j / 2;
      assert Quantise(samples[k]) == 0;
    }
  }

  // ---------------------------------------------------------------------
  // The encoder, writing through a DataView over an ArrayBuffer
  // ---------------------------------------------------------------------

  /** writeString (audio-processor.js:473-477). */
  method WriteString(view: array<byte>, offset: nat, s: string)
    requires offset + |s| <= view.Length
    modifies view
    ensures view[..offset + |s|] == old(view[..offset]) + Ascii(s)
    ensures view[offset + |s|..] == old(view[offset + |s|..])
  {
    var i := 0;
    while i < |s|
      invariant 0 <= i <= |s|
      invariant view[..offset + i] == old(view[..offset]) + Ascii(s)[..i]
      invariant view[offset + |s|..] == old(view[offset + |s|..])
    {
      view[offset + i] := (s[i] as int) % 256;
      i := i + 1;
    }
  }

  /** Stores `bytes` at `offset`, as one DataView setter call does. */
  method Store(view: array<byte>, offset: nat, bytes: seq<byte>)
    requires offset + |bytes| <= view.Length
    modifies view
    ensures view[..offset + |bytes|] == old(view[..offset]) + bytes
    ensures view[offset + |bytes|..] == old(view[offset + |bytes|..])
  {
    var i := 0;
    while i < |bytes|
      invariant 0 <= i <= |bytes|
      invariant view[..offset + i] == old(view[..offset]) + bytes[..i]
      invariant view[offset + |bytes|..] == old(view[offset + |bytes|..])
    {
      view[offset + i] := bytes[i];
      i := i + 1;
    }
  }

  /** The header writes of encodeWAV (audio-processor.js:428-451), for 16-bit
      samples: two bytes per sample, block align = channels * 2. */
  method WriteHeader(view: array<byte>, dataSize: nat, format: nat, sampleRate: nat, numChannels: nat)
    requires HeaderSize <= view.Length
    modifies view
    ensures view[..HeaderSize] == Header(dataSize, format, sampleRate, numChannels)
    ensures view[HeaderSize..] == old(view[HeaderSize..])
  {
    WriteRiff(view, dataSize);
    WriteFmt(view, format, sampleRate, numChannels);
    WriteDataHeader(view, dataSize);
  }

  /** Two sequences that agree from i on agree from any later j on. */
  lemma TailFrom(a: seq<byte>, b: seq<byte>, i: nat, j: nat)
    requires i <= j <= |a| == |b| && a[i..] == b[i..]
    ensures a[j..] == b[j..]
  {
    assert a[j..] == a[i..][j - i..];
    assert b[j..] == b[i..][j - i..];
  }

  /** audio-processor.js:434-437: "RIFF", the RIFF size, "WAVE". */
  method WriteRiff(view: array<byte>, dataSize: nat)
    requires HeaderSize <= view.Length
    modifies view
    ensures view[..12] == RiffDescriptor(dataSize)
    ensures view[12..] == old(view[12..])
  {
    WriteString(view, 0, "RIFF");
    Store(view, 4, U32(36 + dataSize));
    WriteString(view, 8, "WAVE");
  }

  /** audio-processor.js:439-447: the `fmt ` chunk after the descriptor. */
  method WriteFmt(view: array<byte>, format: nat, sampleRate: nat, numChannels: nat)
    requires HeaderSize <= view.Length
    modifies view
    ensures view[..36] == old(view[..12]) + FmtChunk(format, sampleRate, numChannels)
    ensures view[36..] == old(view[36..])
  {
    ghost var riff := view[..12];
    var blockAlign := numChannels * 2;
    WriteFmtLayout(view, format, numChannels);
    WriteFmtRates(view, sampleRate, blockAlign);
    AppendFields(riff, Ascii("fmt "), U32(16), U16(format), U16(numChannels),
                 U32(sampleRate), U32(sampleRate * blockAlign), U16(blockAlign), U16(16));
  }

  /** audio-processor.js:440-443: tag, chunk size, format code, channels. */
  method WriteFmtLayout(view: array<byte>, format: nat, numChannels: nat)
    requires HeaderSize <= view.Length
    modifies view
    ensures view[..24] == old(view[..12]) + Ascii("fmt ") + U32(16) + U16(format) + U16(numChannels)
    ensures view[24..] == old(view[24..])
  {
    ghost var v0 := view[..];
    WriteString(view, 12, "fmt ");
    ghost var v1 := view[..];
    Store(view, 16, U32(16));
    ghost var v2 := view[..];
    Store(view, 20, U16(format));
    ghost var v3 := view[..];
    Store(view, 22, U16(numChannels));
    TailFrom(v3, v2, 22, 24);
    TailFrom(v2, v1, 20, 24);
    TailFrom(v1, v0, 16, 24);
  }

  /** audio-processor.js:444-447: sample rate, byte rate, block align, bits. */
  method WriteFmtRates(view: array<byte>, sampleRate: nat, blockAlign: nat)
    requires HeaderSize <= view.Length
    modifies view
    ensures view[..36] == old(view[..24]) + U32(sampleRate) + U32(sampleRate * blockAlign) + U16(blockAlign) + U16(16)
    ensures view[36..] == old(view[36..])
  {
    ghost var v0 := view[..];
    Store(view, 24, U32(sampleRate));
    ghost var v1 := view[..];
    Store(view, 28, U32(sampleRate * blockAlign));
    ghost var v2 := view[..];
    Store(view, 32, U16(blockAlign));
    ghost var v3 := view[..];
    Store(view, 34, U16(16));
    TailFrom(v3, v2, 34, 36);
    TailFrom(v2, v1, 32, 36);
    TailFrom(v1, v0, 28, 36);
  }

  /** audio-processor.js:449-451: "data" and the data size. */
  method WriteDataHeader(view: array<byte>, dataSize: nat)
    requires HeaderSize <= view.Length
    modifies view
    ensures view[..HeaderSize] == old(view[..36]) + DataChunkHeader(dataSize)
    ensures view[HeaderSize..] == old(view[HeaderSize..])
  {
    WriteString(view, 36, "data");
    Store(view, 40, U32(dataSize));
  }

  lemma ExtendPrefix(h: seq<byte>, d: seq<byte>, k: nat, n: nat)
    requires k + n <= |d|
    ensures h + d[..k] + d[k..k + n] == h + d[..k + n]
  {
    assert d[..k + n] == d[..k] + d[k..k + n];
  }

  /** The sample loop of encodeWAV (audio-processor.js:454-463): each sample is
      clamped, scaled, truncated and stored as a little-endian int16 after
      the header, two bytes further on each time. */
  method WriteSamples(view: array<byte>, samples: seq<real>)
    requires view.Length == HeaderSize + 2 * |samples|
    modifies view
    ensures view[..] == old(view[..HeaderSize]) + SampleData(samples)
  {
    ghost var h := view[..HeaderSize];
    ghost var d := SampleData(samples);
    var offset := HeaderSize;
    var i := 0;
    while i < |samples|
      invariant 0 <= i <= |samples| && offset == HeaderSize + 2 * i
      invariant view[..offset] == h + d[..2 * i]
    {
      var s := Max(-1.0, Min(1.0, samples[i]));
      var v := Trunc(if s < 0.0 then s * 32768.0 else s * 32767.0);
      assert v == Quantise(samples[i]);
      Store(view, offset, I16(v));
      SampleDataAt(samples, i);
      ExtendPrefix(h, d, 2 * i, 2);
      i, offset := i + 1, offset + 2;
    }
    assert d[..2 * i] == d;
    assert view[..] == view[..offset];
  }

  /** encodeWAV (audio-processor.js:427-465) with the sample offset advanced
      by two bytes per sample, so that sample i lands at byte 44 + 2i. The
      source writes the header before it tests the bit depth; when it throws
      the buffer is dropped, so only the error is observable. */
  method EncodeWav(samples: seq<real>, format: nat, sampleRate: nat, numChannels: nat, bitDepth: int)
    returns (r: Result<seq<byte>, WavError>)
    ensures bitDepth != 16 ==> r == Err(UnsupportedBitDepth)
    ensures bitDepth == 16 ==> r == Ok(WavFile(samples, format, sampleRate, numChannels))
  {
    if bitDepth != 16 {
      return Err(UnsupportedBitDepth);
    }
    var bytesPerSample := 2;
    var dataSize := |samples| * bytesPerSample;
    var view := new byte[HeaderSize + dataSize];
    WriteHeader(view, dataSize, format, sampleRate, numChannels);
    WriteSamples(view, samples);
    r := Ok(view[..]);
  }

  /** encodeWAV as audio-processor.js:454-456 writes it: `offset` is declared
      `const`, so the loop update `offset += 2` throws a TypeError when the
      first iteration ends. Only an empty sample list gets through. */
  function EncodeWavAsWritten(samples: seq<real>, format: nat, sampleRate: nat, numChannels: nat, bitDepth: int)
    : (r: Result<seq<byte>, WavError>)
    ensures r.Ok? <==> bitDepth == 16 && |samples| == 0
    ensures r.Ok? ==> |r.value| == HeaderSize
  {
    if bitDepth != 16 then Err(UnsupportedBitDepth)
    else if |samples| == 0 then Ok(WavFile(samples, format, sampleRate, numChannels))
    else Err(AssignmentToConstant)
  }

  /** The discrepancy: one sample of silence, 16-bit, is refused by the code
      as written, while the intended encoder produces a 46-byte file. */
  lemma ConstOffsetCounterexample()
    ensures EncodeWavAsWritten([0.0], 1, 44100, 2, 16) == Err(AssignmentToConstant)
    ensures |WavFile([0.0], 1, 44100, 2)| == 46
  {
  }

  // ---------------------------------------------------------------------
  // Channel interleaving and AudioBuffer export
  // ---------------------------------------------------------------------

  /** Splits interleaved frames back into the two channels. */
  function Deinterleave(frames: seq<real>): (lr: (seq<real>, seq<real>))
    ensures |lr.0| == |lr.1| == |frames| / 2
  {
    (seq(|frames| / 2, k requires 0 <= k < |frames| / 2 => frames[2 * k]),
     seq(|frames| / 2, k requires 0 <= k < |frames| / 2 => frames[2 * k + 1]))
  }

  /** Two equal-length channels as one frame sequence L0 R0 L1 R1 ...;
      splitting it again gives the channels back. */
  function Interleaved(left: seq<real>, right: seq<real>): (frames: seq<real>)
    requires |left| == |right|
    ensures |frames| == 2 * |left|
    ensures Deinterleave(frames) == (left, right)
  {
    var frames := seq(2 * |left|, i requires 0 <= i < 2 * |left| =>
      if i % 2 == 0 then left[i / 2] else right[i / 2]);
    assert Deinterleave(frames).0 == left;
    assert Deinterleave(frames).1 == right;
    frames
  }

  /** The samples audioBufferToWav hands to the encoder. */
  function BufferFrames(buffer: AudioBuffer): (frames: seq<real>)
    requires buffer.Valid()
    ensures |frames| == (if buffer.NumberOfChannels() == 2 then 2 else 1) * buffer.Length()
  {
    if buffer.NumberOfChannels() == 2 then Interleaved(buffer.channels[0], buffer.channels[1])
    else buffer.channels[0]
  }

  /** The file audioBufferToWav produces. */
  function BufferWav(buffer: AudioBuffer): (f: seq<byte>)
    requires buffer.Valid()
    ensures buffer.NumberOfChannels() == 2 ==> |f| == HeaderSize + 4 * buffer.Length()
    ensures buffer.NumberOfChannels() != 2 ==> |f| == HeaderSize + 2 * buffer.Length()
  {
    WavFile(BufferFrames(buffer), 1, buffer.sampleRate, buffer.NumberOfChannels())
  }

  /** interleave (audio-processor.js:403-416): L0 R0 L1 R1 ... */
  method Interleave(left: seq<real>, right: seq<real>) returns (result: seq<real>)
    requires |left| == |right|
    ensures result == Interleaved(left, right)
    ensures |result| == 2 * |left|
    ensures forall k :: 0 <= k < |left| ==> result[2 * k] == left[k] && result[2 * k + 1] == right[k]
    ensures Deinterleave(result) == (left, right)
  {
    var length := |left| + |right|;
    var out := new real[length];
    var inputIndex := 0;
    var i := 0;
    while i < length
      invariant 0 <= inputIndex <= |left| && i == 2 * inputIndex
      invariant forall k :: 0 <= k < inputIndex ==> out[2 * k] == left[k] && out[2 * k + 1] == right[k]
    {
      out[i] := left[inputIndex];
      i := i + 1;
      out[i] := right[inputIndex];
      i := i + 1;
      inputIndex := inputIndex + 1;
    }
    result := out[..];
    FramesDetermine(result, left, right);
  }

  /** A sequence holding frame k at positions 2k and 2k+1 for every k is the
      interleaving. */
  lemma FramesDetermine(s: seq<real>, left: seq<real>, right: seq<real>)
    requires |left| == |right| && |s| == 2 * |left|
    requires forall k :: 0 <= k < |left| ==> s[2 * k] == left[k] && s[2 * k + 1] == right[k]
    ensures s == Interleaved(left, right)
  {
    var frames := Interleaved(left, right);
    forall j | 0 <= j < |s|
      ensures s[j] == frames[j]
    {
      var k := j / 2;
      StereoFrame(left, right, k);
      assert j == 2 * k || j == 2 * k + 1;
    }
  }

  /** Frame k of the interleaving is (left[k], right[k]). */
  lemma InterleavedFrames(left: seq<real>, right: seq<real>)
    requires |left| == |right|
    ensures var s := Interleaved(left, right);
      forall k :: 0 <= k < |left| ==> s[2 * k] == left[k] && s[2 * k + 1] == right[k]
  {
    forall k | 0 <= k < |left| {
      StereoFrame(left, right, k);
    }
  }

  /** audioBufferToWav (audio-processor.js:381-395): format 1 (PCM), 16 bits,
      the buffer's own channel count and rate; two channels are interleaved,
      any other count writes channel 0 alone. */
  method AudioBufferToWav(buffer: AudioBuffer) returns (r: Result<seq<byte>, WavError>)
    requires buffer.Valid()
    ensures r == Ok(BufferWav(buffer))
    ensures var f, n, ch := r.value, buffer.Length(), buffer.NumberOfChannels();
      && |f| == HeaderSize + 2 * (if ch == 2 then 2 * n else n)
      && U16At(f, 20) == 1
      && U16At(f, 22) == ch % 0x1_0000
      && U32At(f, 24) == buffer.sampleRate % 0x1_0000_0000
      && U16At(f, 34) == 16
    ensures var f, n := r.value, buffer.Length();
      buffer.NumberOfChannels() == 2 ==>
        forall k :: 0 <= k < n ==>
          && HeaderSize + 4 * k + 4 <= |f|
          && SampleAt(f, 2 * k) == Quantise(buffer.channels[0][k])
          && SampleAt(f, 2 * k + 1) == Quantise(buffer.channels[1][k])
    ensures var f, n := r.value, buffer.Length();
      buffer.NumberOfChannels() != 2 ==>
        forall k :: 0 <= k < n ==>
          HeaderSize + 2 * k + 2 <= |f| && SampleAt(f, k) == Quantise(buffer.channels[0][k])
  {
    var numberOfChannels := buffer.NumberOfChannels();
    var sampleRate := buffer.sampleRate;
    var format := 1;
    var bitDepth := 16;
    var result;
    if numberOfChannels == 2 {
      result := Interleave(buffer.channels[0], buffer.channels[1]);
    } else {
      result := buffer.channels[0];
    }
    r := EncodeWav(result, format, sampleRate, numberOfChannels, bitDepth);
    BufferWavHeader(buffer);
    if numberOfChannels == 2 {
      StereoSamples(buffer);
    } else {
      MonoSamples(buffer);
    }
  }

  lemma BufferWavHeader(buffer: AudioBuffer)
    requires buffer.Valid()
    ensures var f, n, ch := BufferWav(buffer), buffer.Length(), buffer.NumberOfChannels();
      && |f| == HeaderSize + 2 * (if ch == 2 then 2 * n else n)
      && U16At(f, 20) == 1
      && U16At(f, 22) == ch % 0x1_0000
      && U32At(f, 24) == buffer.sampleRate % 0x1_0000_0000
      && U16At(f, 34) == 16
  {
    HeaderFields(BufferFrames(buffer), 1, buffer.sampleRate, buffer.NumberOfChannels());
  }

  /** As written, every decoded buffer is refused: it has at least one
      frame, so audioBufferToWav (audio-processor.js:394) hands the encoder
      a non-empty list at 16 bits, and the const offset throws. */
  lemma BufferWavAsWrittenRejects(buffer: AudioBuffer)
    requires buffer.Valid()
    ensures EncodeWavAsWritten(BufferFrames(buffer), 1, buffer.sampleRate, buffer.NumberOfChannels(), 16)
      == Err(AssignmentToConstant)
  {
  }

  /** The file of a stereo buffer of n frames at the given rate: 44 + 4n
      bytes, two channels, that rate. */
  lemma StereoWavHeader(buffer: AudioBuffer, n: nat, rate: nat)
    requires buffer.Valid() && buffer.NumberOfChannels() == 2
    requires buffer.Length() == n && buffer.sampleRate == rate
    ensures |BufferWav(buffer)| == HeaderSize + 4 * n
    ensures U16At(BufferWav(buffer), 22) == 2
    ensures U32At(BufferWav(buffer), 24) == rate % 0x1_0000_0000
  {
    BufferWavHeader(buffer);
    StereoFields(BufferWav(buffer), n, buffer.NumberOfChannels(), rate);
  }

  /** The general header facts specialised to two channels. This step is
      kept apart so that the proof of StereoWavHeader does not unfold the
      file while it does the arithmetic. */
  lemma StereoFields(f: seq<byte>, n: nat, channels: nat, rate: nat)
    requires channels == 2 && |f| == HeaderSize + 2 * (if channels == 2 then 2 * n else n)
    requires U16At(f, 22) == channels % 0x1_0000 && U32At(f, 24) == rate % 0x1_0000_0000
    ensures |f| == HeaderSize + 4 * n && U16At(f, 22) == 2 && U32At(f, 24) == rate % 0x1_0000_0000
  {
  }

  /** A two-channel buffer's frame k lands in samples 2k (left) and 2k+1 (right). */
  lemma StereoSamples(buffer: AudioBuffer)
    requires buffer.Valid() && buffer.NumberOfChannels() == 2
    ensures var f, n := BufferWav(buffer), buffer.Length();
      forall k :: 0 <= k < n ==>
        && HeaderSize + 4 * k + 4 <= |f|
        && SampleAt(f, 2 * k) == Quantise(buffer.channels[0][k])
        && SampleAt(f, 2 * k + 1) == Quantise(buffer.channels[1][k])
  {
    var left, right := buffer.channels[0], buffer.channels[1];
    var frames := Interleaved(left, right);
    assert BufferFrames(buffer) == frames;
    var f := WavFile(frames, 1, buffer.sampleRate, 2);
    AllSamples(frames, 1, buffer.sampleRate, 2);
    forall k | 0 <= k < |left|
      ensures HeaderSize + 4 * k + 4 <= |f|
      ensures SampleAt(f, 2 * k) == Quantise(left[k])
      ensures SampleAt(f, 2 * k + 1) == Quantise(right[k])
    {
      StereoFrame(left, right, k);
    }
  }

  lemma StereoFrame(left: seq<real>, right: seq<real>, k: nat)
    requires |left| == |right| && k < |left|
    ensures Interleaved(left, right)[2 * k] == left[k]
    ensures Interleaved(left, right)[2 * k + 1] == right[k]
  {
    EvenOdd(k);
  }

  /** Any other channel count writes channel 0 sample by sample. */
  lemma MonoSamples(buffer: AudioBuffer)
    requires buffer.Valid() && buffer.NumberOfChannels() != 2
    ensures var f, n := BufferWav(buffer), buffer.Length();
      forall k :: 0 <= k < n ==>
        HeaderSize + 2 * k + 2 <= |f| && SampleAt(f, k) == Quantise(buffer.channels[0][k])
  {
    AllSamples(BufferFrames(buffer), 1, buffer.sampleRate, buffer.NumberOfChannels());
  }

  /** Every sample of an encoded file reads back as its quantised value. */
  lemma AllSamples(samples: seq<real>, format: nat, sampleRate: nat, numChannels: nat)
    ensures var f := WavFile(samples, format, sampleRate, numChannels);
      forall k :: 0 <= k < |samples| ==>
        HeaderSize + 2 * k + 2 <= |f| && SampleAt(f, k) == Quantise(samples[k])
  {
    forall k | 0 <= k < |samples|
      ensures SampleAt(WavFile(samples, format, sampleRate, numChannels), k) == Quantise(samples[k])
    {
      SampleRoundTrip(samples, format, sampleRate, numChannels, k);
    }
  }
}
