/**
 * The 44-byte RIFF/WAVE header and the PCM16 sample payload written by the three browser
 * encoders (WAVE form type of the Microsoft/IBM Multimedia Programming Interface and Data
 * Specifications 1.0: a 'fmt ' chunk for mono 16-bit PCM, then a 'data' chunk).
 *
 * The copies differ only in how a clamped sample is scaled, which is the `Scaling` parameter.
 * DataView's `setUint16`/`setUint32` reduce their argument modulo 2^16 / 2^32 and `setInt16`
 * applies ECMAScript ToInt16 (truncate toward zero, then wrap modulo 2^16); both are written out.
 */
module Wave {
  import opened Common

  /** Asymmetric: negative samples times 0x8000, others times 0x7FFF. Symmetric: always 0x7FFF. */
  datatype Scaling = Asymmetric | Symmetric

  const HeaderSize: nat := 44

  /** `Math.max(-1, Math.min(1, x))`. */
  function Clamp(x: real): (c: real)
    ensures -1.0 <= c <= 1.0
    ensures -1.0 <= x <= 1.0 ==> c == x
    ensures x > 1.0 ==> c == 1.0
    ensures x < -1.0 ==> c == -1.0
  {
    if x < -1.0 then -1.0 else if x > 1.0 then 1.0 else x
  }

  function Scale(sc: Scaling, s: real): real
  {
    if sc == Asymmetric && s < 0.0 then s * 32768.0 else s * 32767.0
  }

  /** ECMAScript ToInt16 of an integer: the representative of n modulo 2^16 in [-2^15, 2^15). */
  function ToInt16(n: int): (v: int)
    ensures -32768 <= v < 32768
    ensures (v - n) % 65536 == 0
  {
    var m := n % 65536;
    if m >= 32768 then m - 65536 else m
  }

  lemma ToInt16Identity(n: int)
    requires -32768 <= n < 32768
    ensures ToInt16(n) == n
  {
    if n < 0 {
      assert n % 65536 == n + 65536;
    }
  }

  /** The int16 value stored for one float sample. */
  function SampleValue(sc: Scaling, x: real): int
  {
    ToInt16(Trunc(Scale(sc, Clamp(x))))
  }

  /**
   * The stored value is the truncated scaled sample itself (ToInt16 never wraps after the
   * clamp), it lies in [-32768, 32767], and only the asymmetric scaling reaches -32768.
   */
  lemma SampleValueRange(sc: Scaling, x: real)
    ensures SampleValue(sc, x) == Trunc(Scale(sc, Clamp(x)))
    ensures -32768 <= SampleValue(sc, x) <= 32767
    ensures sc == Symmetric ==> -32767 <= SampleValue(sc, x)
    ensures x >= 1.0 ==> SampleValue(sc, x) == 32767
    ensures x <= -1.0 ==> SampleValue(sc, x) == (if sc == Asymmetric then -32768 else -32767)
    ensures (x >= 0.0) == (SampleValue(sc, x) >= 0) || (-1.0 / 32767.0 < x < 0.0 && SampleValue(sc, x) == 0)
  {
    var t := Trunc(Scale(sc, Clamp(x)));
    assert -32768 <= t <= 32767;
    ToInt16Identity(t);
  }

  /** The clamp makes every sample at or beyond full scale encode like full scale. */
  lemma {:induction false} SampleValueMonotone(sc: Scaling, x: real, y: real)
    requires x <= y
    ensures SampleValue(sc, x) <= SampleValue(sc, y)
  {
    SampleValueRange(sc, x);
    SampleValueRange(sc, y);
    var cx, cy := Clamp(x), Clamp(y);
    assert cx <= cy;
    if cx < 0.0 && cy >= 0.0 {
    } else if sc == Asymmetric && cy < 0.0 {
      assert cx * 32768.0 <= cy * 32768.0;
    } else {
      assert cx * 32767.0 <= cy * 32767.0;
    }
  }

  /** `setUint16(offset, v, true)`: v modulo 2^16, low byte first. */
  function U16LE(v: int): (b: seq<byte>)
    ensures |b| == 2
  {
    var m := v % 65536;
    [(m % 256) as byte, (m / 256) as byte]
  }

  /** `setUint32(offset, v, true)`: v modulo 2^32, least significant byte first. */
  function U32LE(v: int): (b: seq<byte>)
    ensures |b| == 4
  {
    var m := v % 0x1_0000_0000;
    [(m % 256) as byte, (m / 256 % 256) as byte, (m / 65536 % 256) as byte, (m / 16777216) as byte]
  }

  /** `setInt16(offset, v, true)` of an already converted value: its two's complement, low byte first. */
  function I16LE(v: int): (b: seq<byte>)
    ensures |b| == 2
  {
    U16LE(v)
  }

  /** `writeString`: each character code of an ASCII tag as one byte. */
  function Tag(s: string): (b: seq<byte>)
    requires forall i :: 0 <= i < |s| ==> s[i] as int < 128
    ensures |b| == |s|
    ensures forall i :: 0 <= i < |s| ==> b[i] as int == s[i] as int
  {
    seq(|s|, i requires 0 <= i < |s| => s[i] as int as byte)
  }

  const RiffTag: seq<byte> := Tag("RIFF")
  const WaveTag: seq<byte> := Tag("WAVE")
  const FmtTag: seq<byte> := Tag("fmt ")
  const DataTag: seq<byte> := Tag("data")

  /**
   * The 44 header bytes around given field encodings: 'RIFF', the RIFF size, 'WAVE', 'fmt ', the
   * chunk size, format, channels, rate, byte rate, block align, bits per sample, 'data' and the
   * data size.
   */
  function Layout(riffSize: seq<byte>, fmtSize: seq<byte>, format: seq<byte>, channels: seq<byte>,
                  sr: seq<byte>, byteRate: seq<byte>, align: seq<byte>, bits: seq<byte>, dataSize: seq<byte>): (h: seq<byte>)
    requires |riffSize| == 4 && |fmtSize| == 4 && |format| == 2 && |channels| == 2
    requires |sr| == 4 && |byteRate| == 4 && |align| == 2 && |bits| == 2 && |dataSize| == 4
    ensures |h| == HeaderSize
  {
    RiffTag + riffSize + WaveTag + FmtTag + fmtSize + format + channels + sr + byteRate + align + bits + DataTag + dataSize
  }

  /**
   * The header for n samples at the given rate: RIFF size 36 + 2n, 'fmt ' size 16, format 1 (PCM),
   * 1 channel, the rate, byte rate 2 * rate, block align 2, 16 bits per sample and data size 2n.
   */
  function Header(n: nat, rate: int): (h: seq<byte>)
    ensures |h| == HeaderSize
  {
    Layout(U32LE(36 + 2 * n), U32LE(16), U16LE(1), U16LE(1), U32LE(rate), U32LE(rate * 2), U16LE(2), U16LE(16), U32LE(2 * n))
  }

  /** The sample bytes: sample i as a little-endian int16 at [2i, 2i+2). */
  function Payload(sc: Scaling, samples: seq<real>): (p: seq<byte>)
    ensures |p| == 2 * |samples|
  {
    seq(2 * |samples|, j requires 0 <= j < 2 * |samples| => I16LE(SampleValue(sc, samples[j / 2]))[j % 2])
  }

  /** The whole file: 44 + 2n bytes. */
  function Encode(sc: Scaling, samples: seq<real>, rate: int): (e: seq<byte>)
    ensures |e| == HeaderSize + 2 * |samples|
  {
    Header(|samples|, rate) + Payload(sc, samples)
  }

  // ---- Reading a file back, as a WAVE reader does ----

  function ReadU16(b: seq<byte>, off: nat): int
    requires off + 2 <= |b|
  {
    b[off] as int + 256 * b[off + 1] as int
  }

  function ReadU32(b: seq<byte>, off: nat): int
    requires off + 4 <= |b|
  {
    b[off] as int + 256 * b[off + 1] as int + 65536 * b[off + 2] as int + 16777216 * b[off + 3] as int
  }

  function ReadI16(b: seq<byte>, off: nat): int
    requires off + 2 <= |b|
  {
    var u := ReadU16(b, off);
    if u >= 32768 then u - 65536 else u
  }

  function ReadTag(b: seq<byte>, off: nat): seq<byte>
    requires off + 4 <= |b|
  {
    b[off..off + 4]
  }

  lemma U16Read(v: int)
    ensures ReadU16(U16LE(v), 0) == v % 65536
  {
  }

  lemma U32Read(v: int)
    ensures ReadU32(U32LE(v), 0) == v % 0x1_0000_0000
  {
    var m := v % 0x1_0000_0000;
    assert m == m % 256 + 256 * (m / 256);
    assert m / 256 == m / 256 % 256 + 256 * (m / 65536);
    assert m / 65536 == m / 65536 % 256 + 256 * (m / 16777216);
  }

  lemma I16Read(v: int)
    requires -32768 <= v < 32768
    ensures ReadI16(I16LE(v), 0) == v
  {
    U16Read(v);
    if v < 0 {
      assert v % 65536 == v + 65536;
    }
  }

  /** The format fields a reader takes from the header. */
  datatype Format = Format(formatTag: int, channels: int, sampleRate: int, byteRate: int,
                           blockAlign: int, bitsPerSample: int, dataSize: int)

  /**
   * A reader's check of the canonical 44-byte header: the four tags, a 16-byte 'fmt ' chunk and a
   * RIFF size that is the data size plus 36 (modulo 2^32, as it is stored).
   */
  function ParseHeader(b: seq<byte>): (r: Option<Format>)
    ensures r.Some? ==> |b| >= HeaderSize && ReadTag(b, 0) == RiffTag && ReadTag(b, 36) == DataTag
  {
    if |b| < HeaderSize then None
    else
      var h := b[..HeaderSize];
      if ReadTag(h, 0) != RiffTag || ReadTag(h, 8) != WaveTag || ReadTag(h, 12) != FmtTag || ReadTag(h, 36) != DataTag then None
      else if ReadU32(h, 16) != 16 || ReadU32(h, 4) != (ReadU32(h, 40) + 36) % 0x1_0000_0000 then None
      else Some(Format(ReadU16(h, 20), ReadU16(h, 22), ReadU32(h, 24), ReadU32(h, 28),
                       ReadU16(h, 32), ReadU16(h, 34), ReadU32(h, 40)))
  }

  /** The int16 samples stored after the header. */
  function ReadSamples(b: seq<byte>): (s: seq<int>)
    requires |b| >= HeaderSize
    ensures |s| == (|b| - HeaderSize) / 2
  {
    seq((|b| - HeaderSize) / 2, i requires 0 <= i < (|b| - HeaderSize) / 2 => ReadI16(b, HeaderSize + 2 * i))
  }

  /** The four chunk tags sit at offsets 0, 8, 12 and 36. */
  lemma LayoutTags(riffSize: seq<byte>, fmtSize: seq<byte>, format: seq<byte>, channels: seq<byte>,
                   sr: seq<byte>, byteRate: seq<byte>, align: seq<byte>, bits: seq<byte>, dataSize: seq<byte>)
    requires |riffSize| == 4 && |fmtSize| == 4 && |format| == 2 && |channels| == 2
    requires |sr| == 4 && |byteRate| == 4 && |align| == 2 && |bits| == 2 && |dataSize| == 4
    ensures var h := Layout(riffSize, fmtSize, format, channels, sr, byteRate, align, bits, dataSize);
      ReadTag(h, 0) == RiffTag && ReadTag(h, 8) == WaveTag && ReadTag(h, 12) == FmtTag && ReadTag(h, 36) == DataTag
  {
  }

  /** Each field encoding lands at its offset of the layout. */
  lemma LayoutFields(riffSize: seq<byte>, fmtSize: seq<byte>, format: seq<byte>, channels: seq<byte>,
                     sr: seq<byte>, byteRate: seq<byte>, align: seq<byte>, bits: seq<byte>, dataSize: seq<byte>)
    requires |riffSize| == 4 && |fmtSize| == 4 && |format| == 2 && |channels| == 2
    requires |sr| == 4 && |byteRate| == 4 && |align| == 2 && |bits| == 2 && |dataSize| == 4
    ensures var h := Layout(riffSize, fmtSize, format, channels, sr, byteRate, align, bits, dataSize);
      && ReadU32(h, 4) == ReadU32(riffSize, 0) && ReadU32(h, 16) == ReadU32(fmtSize, 0)
      && ReadU16(h, 20) == ReadU16(format, 0) && ReadU16(h, 22) == ReadU16(channels, 0)
      && ReadU32(h, 24) == ReadU32(sr, 0) && ReadU32(h, 28) == ReadU32(byteRate, 0)
      && ReadU16(h, 32) == ReadU16(align, 0) && ReadU16(h, 34) == ReadU16(bits, 0)
      && ReadU32(h, 40) == ReadU32(dataSize, 0)
  {
  }

  /**
   * The whole header: the tags 'RIFF', 'WAVE', 'fmt ' and 'data' at 0, 8, 12 and 36, and the
   * numeric fields: the RIFF size 36 + 2n at 4, the 'fmt ' size 16 at 16, PCM format 1 at 20,
   * one channel at 22, the rate at 24, the byte rate at 28, block align 2 at 32, 16 bits at 34 and
   * the data size 2n at 40, each 32-bit one modulo 2^32 as stored.
   */
  lemma HeaderSizes(n: nat, rate: int)
    ensures var h := Header(n, rate);
      && ReadTag(h, 0) == RiffTag && ReadTag(h, 8) == WaveTag && ReadTag(h, 12) == FmtTag && ReadTag(h, 36) == DataTag
      && ReadU32(h, 4) == (36 + 2 * n) % 0x1_0000_0000
      && ReadU32(h, 16) == 16
      && ReadU16(h, 20) == 1 && ReadU16(h, 22) == 1
      && ReadU32(h, 24) == rate % 0x1_0000_0000
      && ReadU32(h, 28) == rate * 2 % 0x1_0000_0000
      && ReadU16(h, 32) == 2 && ReadU16(h, 34) == 16
      && ReadU32(h, 40) == 2 * n % 0x1_0000_0000
  {
    LayoutTags(U32LE(36 + 2 * n), U32LE(16), U16LE(1), U16LE(1), U32LE(rate), U32LE(rate * 2), U16LE(2), U16LE(16), U32LE(2 * n));
    HeaderWideFields(n, rate);
    HeaderNarrowFields(n, rate);
  }

  lemma HeaderWideFields(n: nat, rate: int)
    ensures var h := Header(n, rate);
      && ReadU32(h, 4) == (36 + 2 * n) % 0x1_0000_0000 && ReadU32(h, 16) == 16
      && ReadU32(h, 24) == rate % 0x1_0000_0000 && ReadU32(h, 28) == rate * 2 % 0x1_0000_0000
      && ReadU32(h, 40) == 2 * n % 0x1_0000_0000
  {
    LayoutFields(U32LE(36 + 2 * n), U32LE(16), U16LE(1), U16LE(1), U32LE(rate), U32LE(rate * 2), U16LE(2), U16LE(16), U32LE(2 * n));
    U32Fields(n, rate);
  }

  lemma HeaderNarrowFields(n: nat, rate: int)
    ensures var h := Header(n, rate);
      && ReadU16(h, 20) == 1 && ReadU16(h, 22) == 1 && ReadU16(h, 32) == 2 && ReadU16(h, 34) == 16
  {
    NarrowFieldsOf(U32LE(36 + 2 * n), U32LE(rate), U32LE(rate * 2), U32LE(2 * n));
  }

  /** The 16-bit fields do not depend on the sizes and rates around them. */
  lemma NarrowFieldsOf(riffSize: seq<byte>, sr: seq<byte>, byteRate: seq<byte>, dataSize: seq<byte>)
    requires |riffSize| == 4 && |sr| == 4 && |byteRate| == 4 && |dataSize| == 4
    ensures var h := Layout(riffSize, U32LE(16), U16LE(1), U16LE(1), sr, byteRate, U16LE(2), U16LE(16), dataSize);
      && ReadU16(h, 20) == 1 && ReadU16(h, 22) == 1 && ReadU16(h, 32) == 2 && ReadU16(h, 34) == 16
  {
    LayoutFields(riffSize, U32LE(16), U16LE(1), U16LE(1), sr, byteRate, U16LE(2), U16LE(16), dataSize);
    U16Read(1);
    U16Read(2);
    U16Read(16);
  }

  lemma U32Fields(n: nat, rate: int)
    ensures ReadU32(U32LE(36 + 2 * n), 0) == (36 + 2 * n) % 0x1_0000_0000
    ensures ReadU32(U32LE(16), 0) == 16
    ensures ReadU32(U32LE(rate), 0) == rate % 0x1_0000_0000
    ensures ReadU32(U32LE(rate * 2), 0) == rate * 2 % 0x1_0000_0000
    ensures ReadU32(U32LE(2 * n), 0) == 2 * n % 0x1_0000_0000
  {
    U32SizeFields(n);
    U32Read(rate);
    U32Read(rate * 2);
  }

  lemma U32SizeFields(n: nat)
    ensures ReadU32(U32LE(36 + 2 * n), 0) == (36 + 2 * n) % 0x1_0000_0000
    ensures ReadU32(U32LE(16), 0) == 16
    ensures ReadU32(U32LE(2 * n), 0) == 2 * n % 0x1_0000_0000
  {
    U32Read(36 + 2 * n);
    U32Read(16);
    U32Read(2 * n);
  }

  /** A reader accepts the header and recovers mono 16-bit PCM at the (wrapped) rate. */
  lemma ParseHeaderOfHeader(n: nat, rate: int)
    ensures ParseHeader(Header(n, rate))
      == Some(Format(1, 1, rate % 0x1_0000_0000, rate * 2 % 0x1_0000_0000, 2, 16, 2 * n % 0x1_0000_0000))
  {
    var h := Header(n, rate);
    assert h[..HeaderSize] == h;
    LayoutTags(U32LE(36 + 2 * n), U32LE(16), U16LE(1), U16LE(1), U32LE(rate), U32LE(rate * 2), U16LE(2), U16LE(16), U32LE(2 * n));
    HeaderSizes(n, rate);
    SizeModulus(2 * n);
  }

  lemma SizeModulus(d: int)
    ensures (36 + d) % 0x1_0000_0000 == (d % 0x1_0000_0000 + 36) % 0x1_0000_0000
  {
  }

  /** The encoded file starts with that header, so a reader accepts the whole file the same way. */
  lemma ParseEncodedHeader(sc: Scaling, samples: seq<real>, rate: int)
    ensures Encode(sc, samples, rate)[..HeaderSize] == Header(|samples|, rate)
    ensures ParseHeader(Encode(sc, samples, rate))
      == Some(Format(1, 1, rate % 0x1_0000_0000, rate * 2 % 0x1_0000_0000, 2, 16, 2 * |samples| % 0x1_0000_0000))
  {
    var e := Encode(sc, samples, rate);
    var h := Header(|samples|, rate);
    assert e[..HeaderSize] == h;
    assert h[..HeaderSize] == h;
    ParseHeaderOfHeader(|samples|, rate);
    assert ParseHeader(e) == ParseHeader(h);
  }

  /** For a rate whose byte rate fits in 32 bits, the header reports the rate and byte rate unchanged. */
  lemma ParseEncodedHeaderInRange(sc: Scaling, samples: seq<real>, rate: int)
    requires 0 <= rate && rate * 2 < 0x1_0000_0000
    ensures ParseHeader(Encode(sc, samples, rate))
      == Some(Format(1, 1, rate, rate * 2, 2, 16, 2 * |samples| % 0x1_0000_0000))
  {
    ParseEncodedHeader(sc, samples, rate);
    SmallModulus(rate);
    SmallModulus(rate * 2);
  }

  lemma SmallModulus(x: int)
    requires 0 <= x < 0x1_0000_0000
    ensures x % 0x1_0000_0000 == x
  {
  }

  /** Sample i reads back, at offset 44 + 2i, as its clamped, scaled and truncated value. */
  lemma SampleAt(sc: Scaling, samples: seq<real>, rate: int, i: nat)
    requires i < |samples|
    ensures ReadI16(Encode(sc, samples, rate), HeaderSize + 2 * i) == SampleValue(sc, samples[i])
  {
    var e := Encode(sc, samples, rate);
    var v := SampleValue(sc, samples[i]);
    SampleValueRange(sc, samples[i]);
    assert e[HeaderSize + 2 * i] == I16LE(v)[0];
    assert e[HeaderSize + 2 * i + 1] == I16LE(v)[1];
    I16Read(v);
  }

  /** Decoding the payload of an encoding gives every sample's stored value, in order. */
  lemma DecodeSamples(sc: Scaling, samples: seq<real>, rate: int)
    ensures ReadSamples(Encode(sc, samples, rate)) == seq(|samples|, i requires 0 <= i < |samples| => SampleValue(sc, samples[i]))
  {
    var e := Encode(sc, samples, rate);
    forall i | 0 <= i < |samples|
      ensures ReadSamples(e)[i] == SampleValue(sc, samples[i])
    {
      SampleAt(sc, samples, rate, i);
    }
  }

  /** Samples beyond full scale encode exactly like full scale. */
  lemma ClampInvariance(sc: Scaling, samples: seq<real>, rate: int)
    ensures Encode(sc, seq(|samples|, i requires 0 <= i < |samples| => Clamp(samples[i])), rate) == Encode(sc, samples, rate)
  {
  }

  /**
   * `encodeWAV` / `createWAVBlob`: a fresh buffer of 44 + 2n bytes, the header written first and
   * then one little-endian int16 per sample, advancing the offset by two.
   */
  method EncodeWav(sc: Scaling, samples: seq<real>, rate: int) returns (buf: array<byte>)
    ensures buf[..] == Encode(sc, samples, rate)
  {
    buf := new byte[HeaderSize + 2 * |samples|];
    var header := Header(|samples|, rate);
    for j := 0 to HeaderSize
      invariant forall k :: 0 <= k < j ==> buf[k] == header[k]
    {
      buf[j] := header[j];
    }
    assert buf[..HeaderSize] == header;
    WritePayload(buf, sc, samples);
    assert forall k :: 0 <= k < buf.Length ==> buf[k] == (header + Payload(sc, samples))[k];
  }

  /** The loop that writes each sample as two little-endian bytes after the header. */
  method WritePayload(buf: array<byte>, sc: Scaling, samples: seq<real>)
    requires buf.Length == HeaderSize + 2 * |samples|
    modifies buf
    ensures buf[..HeaderSize] == old(buf[..HeaderSize])
    ensures forall k :: HeaderSize <= k < buf.Length ==> buf[k] == Payload(sc, samples)[k - HeaderSize]
  {
    ghost var payload := Payload(sc, samples);
    var offset := HeaderSize;
    for i := 0 to |samples|
      invariant offset == HeaderSize + 2 * i
      invariant buf[..HeaderSize] == old(buf[..HeaderSize])
      invariant forall k :: HeaderSize <= k < offset ==> buf[k] == payload[k - HeaderSize]
    {
      var bytes := I16LE(SampleValue(sc, samples[i]));
      assert (2 * i) / 2 == i && (2 * i + 1) / 2 == i && (2 * i) % 2 == 0 && (2 * i + 1) % 2 == 1;
      assert payload[2 * i] == bytes[0] && payload[2 * i + 1] == bytes[1];
      buf[offset] := bytes[0];
      buf[offset + 1] := bytes[1];
      offset := offset + 2;
    }
  }
}
