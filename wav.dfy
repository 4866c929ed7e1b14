/** `pcmToWav`: framing headerless 16-bit PCM samples as a WAVE file of the
    RIFF container (the WAVE form of the Multimedia Programming Interface and
    Data Specifications 1.0, with one `fmt ` chunk of the WAVE_FORMAT_PCM
    category followed by one `data` chunk). */
module Wav {

  import opened Outcomes

  newtype byte = b: int | 0 <= b < 256

  const Uint32Range: nat := 0x1_0000_0000
  const Uint16Range: nat := 0x1_0000

  /** The four bytes `DataView.setUint32(offset, value, littleEndian)` stores:
      `value` reduced modulo 2^32, most significant byte first unless
      `littleEndian`. */
  function Uint32Bytes(value: int, littleEndian: bool): (b: seq<byte>)
    ensures |b| == 4
  {
    var v := value % Uint32Range;
    var q1 := v / 0x100;
    var q2 := q1 / 0x100;
    var q3 := q2 / 0x100;
    var b3, b2, b1, b0 := (q3 % 0x100) as byte, (q2 % 0x100) as byte, (q1 % 0x100) as byte, (v % 0x100) as byte;
    if littleEndian then [b0, b1, b2, b3] else [b3, b2, b1, b0]
  }

  /** The two bytes `DataView.setUint16(offset, value, littleEndian)` stores. */
  function Uint16Bytes(value: int, littleEndian: bool): (b: seq<byte>)
    ensures |b| == 2
  {
    var v := value % Uint16Range;
    var hi, lo := (v / 0x100) as byte, (v % 0x100) as byte;
    if littleEndian then [lo, hi] else [hi, lo]
  }

  /** The unsigned little-endian 32-bit integer at `offset`. */
  function ReadUint32LE(b: seq<byte>, offset: nat): nat
    requires offset + 4 <= |b|
  {
    b[offset] as nat + 0x100 * b[offset + 1] as nat
    + 0x1_0000 * b[offset + 2] as nat + 0x100_0000 * b[offset + 3] as nat
  }

  /** The unsigned little-endian 16-bit integer at `offset`. */
  function ReadUint16LE(b: seq<byte>, offset: nat): nat
    requires offset + 2 <= |b|
  {
    b[offset] as nat + 0x100 * b[offset + 1] as nat
  }

  /** Reading back a little-endian 32-bit field gives the value written,
      reduced modulo 2^32. */
  lemma Uint32RoundTrip(value: int)
    ensures ReadUint32LE(Uint32Bytes(value, true), 0) == value % Uint32Range
  {
    var v := value % Uint32Range;
    var q1 := v / 0x100;
    var q2 := q1 / 0x100;
    var q3 := q2 / 0x100;
    assert v == q1 * 0x100 + v % 0x100;
    assert q1 == q2 * 0x100 + q1 % 0x100;
    assert q2 == q3 * 0x100 + q2 % 0x100;
    assert q1 < 0x100_0000 && q2 < 0x1_0000 && q3 < 0x100;
  }

  /** Reading back a little-endian 16-bit field gives the value written,
      reduced modulo 2^16. */
  lemma Uint16RoundTrip(value: int)
    ensures ReadUint16LE(Uint16Bytes(value, true), 0) == value % Uint16Range
  {
  }

  /** The ASCII bytes of a chunk tag. */
  function Ascii(s: string): (b: seq<byte>)
    requires forall i :: 0 <= i < |s| ==> s[i] as int < 256
    ensures |b| == |s|
    ensures forall i :: 0 <= i < |s| ==> b[i] as int == s[i] as int
  {
    seq(|s|, i requires 0 <= i < |s| => s[i] as int as byte)
  }

  /** Each chunk tag the header writes as a big-endian 32-bit constant is the
      tag's four ASCII characters in order. */
  lemma TagConstants()
    ensures Uint32Bytes(0x52494646, false) == Ascii("RIFF")
    ensures Uint32Bytes(0x57415645, false) == Ascii("WAVE")
    ensures Uint32Bytes(0x666d7420, false) == Ascii("fmt ")
    ensures Uint32Bytes(0x64617461, false) == Ascii("data")
  {
  }

  /** The sample format `pcmToWav` is called with. */
  datatype Format = Format(sampleRate: nat, numChannels: nat, bitsPerSample: nat)

  /** The defaults of `pcmToWav`: 24000 Hz, one channel, 16-bit samples. */
  const DefaultFormat: Format := Format(24000, 1, 16)

  /** Bytes per second: sampleRate × channels × bitsPerSample / 8. */
  function ByteRate(f: Format): nat
  {
    f.sampleRate * f.numChannels * f.bitsPerSample / 8
  }

  /** Bytes per sample frame: channels × bitsPerSample / 8. */
  function BlockAlign(f: Format): nat
  {
    f.numChannels * f.bitsPerSample / 8
  }

  /** With the default format a second of audio is 48000 bytes and a frame is
      2 bytes. */
  lemma DefaultRates()
    ensures ByteRate(DefaultFormat) == 48000 && BlockAlign(DefaultFormat) == 2
  {
  }

  /** The 44 header bytes for a payload of `dataLength` bytes, field by field
      in file order: the RIFF chunk header, the WAVE form type, the 16-byte
      `fmt ` chunk and the header of the `data` chunk. */
  function Header(dataLength: nat, f: Format): seq<byte>
  {
    Uint32Bytes(0x52494646, false) + Uint32Bytes(36 + dataLength, true)
    + Uint32Bytes(0x57415645, false)
    + Uint32Bytes(0x666d7420, false) + Uint32Bytes(16, true)
    + Uint16Bytes(1, true) + Uint16Bytes(f.numChannels, true)
    + Uint32Bytes(f.sampleRate, true) + Uint32Bytes(ByteRate(f), true)
    + Uint16Bytes(BlockAlign(f), true) + Uint16Bytes(f.bitsPerSample, true)
    + Uint32Bytes(0x64617461, false) + Uint32Bytes(dataLength, true)
  }

  /** The contents of the blob `pcmToWav` returns: header, then the samples. */
  function WavFile(pcm: seq<byte>, f: Format): seq<byte>
  {
    Header(|pcm|, f) + pcm
  }

  /** A blob: its bytes and its MIME type. */
  datatype Blob = Blob(bytes: seq<byte>, mimeType: string)

  /** `view.setUint32(offset, value, littleEndian)` on a byte buffer. */
  method SetUint32(view: array<byte>, offset: nat, value: int, littleEndian: bool)
    requires offset + 4 <= view.Length
    modifies view
    ensures view[..offset] == old(view[..offset])
    ensures view[offset..offset + 4] == Uint32Bytes(value, littleEndian)
    ensures view[offset + 4..] == old(view[offset + 4..])
  {
    var b := Uint32Bytes(value, littleEndian);
    view[offset], view[offset + 1], view[offset + 2], view[offset + 3] := b[0], b[1], b[2], b[3];
  }

  /** `view.setUint16(offset, value, littleEndian)` on a byte buffer. */
  method SetUint16(view: array<byte>, offset: nat, value: int, littleEndian: bool)
    requires offset + 2 <= view.Length
    modifies view
    ensures view[..offset] == old(view[..offset])
    ensures view[offset..offset + 2] == Uint16Bytes(value, littleEndian)
    ensures view[offset + 2..] == old(view[offset + 2..])
  {
    var b := Uint16Bytes(value, littleEndian);
    view[offset], view[offset + 1] := b[0], b[1];
  }

  /** A prefix followed by the next slice is the longer prefix. */
  lemma Extend(a: seq<byte>, n: nat, k: nat, pre: seq<byte>, piece: seq<byte>)
    requires n + k <= |a| && a[..n] == pre && a[n..n + k] == piece
    ensures a[..n + k] == pre + piece
  {
    assert a[..n + k] == a[..n] + a[n..n + k];
  }

  /** `pcmToWav(pcmData, sampleRate, numChannels, bitsPerSample)`: fills a
      fresh 44-byte buffer field by field and returns it followed by the
      samples, typed `audio/wav`. */
  method PcmToWav(pcm: seq<byte>, sampleRate: nat := 24000, numChannels: nat := 1,
                  bitsPerSample: nat := 16)
    returns (blob: Blob)
    ensures blob == Blob(WavFile(pcm, Format(sampleRate, numChannels, bitsPerSample)), "audio/wav")
  {
    var byteRate := sampleRate * numChannels * bitsPerSample / 8;
    var blockAlign := numChannels * bitsPerSample / 8;
    var wavHeader := new byte[44];
    // `written` is what the buffer holds before the next write offset.
    SetUint32(wavHeader, 0, 0x52494646, false);
    ghost var written := Uint32Bytes(0x52494646, false);
    SetUint32(wavHeader, 4, 36 + |pcm|, true);
    Extend(wavHeader[..], 4, 4, written, Uint32Bytes(36 + |pcm|, true));
    written := written + Uint32Bytes(36 + |pcm|, true);
    SetUint32(wavHeader, 8, 0x57415645, false);
    Extend(wavHeader[..], 8, 4, written, Uint32Bytes(0x57415645, false));
    written := written + Uint32Bytes(0x57415645, false);
    SetUint32(wavHeader, 12, 0x666d7420, false);
    Extend(wavHeader[..], 12, 4, written, Uint32Bytes(0x666d7420, false));
    written := written + Uint32Bytes(0x666d7420, false);
    SetUint32(wavHeader, 16, 16, true);
    Extend(wavHeader[..], 16, 4, written, Uint32Bytes(16, true));
    written := written + Uint32Bytes(16, true);
    SetUint16(wavHeader, 20, 1, true);
    Extend(wavHeader[..], 20, 2, written, Uint16Bytes(1, true));
    written := written + Uint16Bytes(1, true);
    SetUint16(wavHeader, 22, numChannels, true);
    Extend(wavHeader[..], 22, 2, written, Uint16Bytes(numChannels, true));
    written := written + Uint16Bytes(numChannels, true);
    SetUint32(wavHeader, 24, sampleRate, true);
    Extend(wavHeader[..], 24, 4, written, Uint32Bytes(sampleRate, true));
    written := written + Uint32Bytes(sampleRate, true);
    SetUint32(wavHeader, 28, byteRate, true);
    Extend(wavHeader[..], 28, 4, written, Uint32Bytes(byteRate, true));
    written := written + Uint32Bytes(byteRate, true);
    SetUint16(wavHeader, 32, blockAlign, true);
    Extend(wavHeader[..], 32, 2, written, Uint16Bytes(blockAlign, true));
    written := written + Uint16Bytes(blockAlign, true);
    SetUint16(wavHeader, 34, bitsPerSample, true);
    Extend(wavHeader[..], 34, 2, written, Uint16Bytes(bitsPerSample, true));
    written := written + Uint16Bytes(bitsPerSample, true);
    SetUint32(wavHeader, 36, 0x64617461, false);
    Extend(wavHeader[..], 36, 4, written, Uint32Bytes(0x64617461, false));
    written := written + Uint32Bytes(0x64617461, false);
    SetUint32(wavHeader, 40, |pcm|, true);
    Extend(wavHeader[..], 40, 4, written, Uint32Bytes(|pcm|, true));
    written := written + Uint32Bytes(|pcm|, true);
    assert wavHeader[..] == written;
    blob := Blob(wavHeader[..] + pcm, "audio/wav");
  }

  /** Reading at an offset is reading the slice that starts there. */
  lemma ReadSlice(b: seq<byte>, offset: nat)
    requires offset + 4 <= |b|
    ensures ReadUint32LE(b, offset) == ReadUint32LE(b[offset..offset + 4], 0)
    ensures ReadUint16LE(b, offset) == ReadUint16LE(b[offset..offset + 2], 0)
  {
  }

  /** Where each field of the header lies in the file. */
  lemma FieldSlices(pcm: seq<byte>, f: Format)
    ensures var w := WavFile(pcm, f);
      && |w| == 44 + |pcm| && w[44..] == pcm
      && w[0..4] == Uint32Bytes(0x52494646, false) && w[4..8] == Uint32Bytes(36 + |pcm|, true)
      && w[8..12] == Uint32Bytes(0x57415645, false) && w[12..16] == Uint32Bytes(0x666d7420, false)
      && w[16..20] == Uint32Bytes(16, true) && w[20..22] == Uint16Bytes(1, true)
      && w[22..24] == Uint16Bytes(f.numChannels, true) && w[24..28] == Uint32Bytes(f.sampleRate, true)
      && w[28..32] == Uint32Bytes(ByteRate(f), true) && w[32..34] == Uint16Bytes(BlockAlign(f), true)
      && w[34..36] == Uint16Bytes(f.bitsPerSample, true) && w[36..40] == Uint32Bytes(0x64617461, false)
      && w[40..44] == Uint32Bytes(|pcm|, true)
  {
  }

  /** The byte layout of every file `pcmToWav` produces: 44 header bytes and
      then the samples unchanged; the four ASCII chunk tags; the RIFF size
      36 + |pcm| and the data size |pcm| (both modulo 2^32); a 16-byte `fmt `
      chunk of format tag 1 (PCM) holding the channel count, the sample rate,
      the byte rate, the block alignment and the sample width. */
  lemma WavLayout(pcm: seq<byte>, f: Format)
    ensures var w := WavFile(pcm, f);
      && |w| == 44 + |pcm| && w[44..] == pcm
      && w[0..4] == Ascii("RIFF") && w[8..12] == Ascii("WAVE")
      && w[12..16] == Ascii("fmt ") && w[36..40] == Ascii("data")
      && ReadUint32LE(w, 4) == (36 + |pcm|) % Uint32Range
      && ReadUint32LE(w, 16) == 16
      && ReadUint16LE(w, 20) == 1
      && ReadUint16LE(w, 22) == f.numChannels % Uint16Range
      && ReadUint32LE(w, 24) == f.sampleRate % Uint32Range
      && ReadUint32LE(w, 28) == ByteRate(f) % Uint32Range
      && ReadUint16LE(w, 32) == BlockAlign(f) % Uint16Range
      && ReadUint16LE(w, 34) == f.bitsPerSample % Uint16Range
      && ReadUint32LE(w, 40) == |pcm| % Uint32Range
  {
    var w := WavFile(pcm, f);
    FieldSlices(pcm, f);
    TagConstants();
    ReadSlice(w, 4);
    Uint32RoundTrip(36 + |pcm|);
    ReadSlice(w, 16);
    Uint32RoundTrip(16);
    ReadSlice(w, 20);
    Uint16RoundTrip(1);
    ReadSlice(w, 22);
    Uint16RoundTrip(f.numChannels);
    ReadSlice(w, 24);
    Uint32RoundTrip(f.sampleRate);
    ReadSlice(w, 28);
    Uint32RoundTrip(ByteRate(f));
    ReadSlice(w, 32);
    Uint16RoundTrip(BlockAlign(f));
    ReadSlice(w, 34);
    Uint16RoundTrip(f.bitsPerSample);
    ReadSlice(w, 40);
    Uint32RoundTrip(|pcm|);
  }

  /** What a reader of a canonical 44-byte-header PCM file recovers. */
  datatype WavInfo = WavInfo(format: Format, byteRate: nat, blockAlign: nat, data: seq<byte>)

  /** A reader for canonical PCM WAVE files: checks the chunk tags, the RIFF
      and `data` sizes against the file length, the `fmt ` chunk size and the
      PCM format tag, and returns the format fields and the samples. */
  function ParseWav(w: seq<byte>): Option<WavInfo>
  {
    if |w| < 44 then None
    else if w[0..4] != Ascii("RIFF") || w[8..12] != Ascii("WAVE")
         || w[12..16] != Ascii("fmt ") || w[36..40] != Ascii("data") then None
    else if ReadUint32LE(w, 4) != |w| - 8 || ReadUint32LE(w, 16) != 16
         || ReadUint16LE(w, 20) != 1 || ReadUint32LE(w, 40) != |w| - 44 then None
    else Some(WavInfo(Format(ReadUint32LE(w, 24), ReadUint16LE(w, 22), ReadUint16LE(w, 34)),
                      ReadUint32LE(w, 28), ReadUint16LE(w, 32), w[44..]))
  }

  /** Every field that fits its width in the header. */
  predicate FitsHeader(dataLength: nat, f: Format)
  {
    && 36 + dataLength < Uint32Range
    && f.sampleRate < Uint32Range && ByteRate(f) < Uint32Range
    && f.numChannels < Uint16Range && f.bitsPerSample < Uint16Range && BlockAlign(f) < Uint16Range
  }

  /** Reading back what `pcmToWav` writes recovers the format, the derived
      rates and the samples exactly, as long as every field fits its width. */
  lemma ParseWavFile(pcm: seq<byte>, f: Format)
    requires FitsHeader(|pcm|, f)
    ensures ParseWav(WavFile(pcm, f)) == Some(WavInfo(f, ByteRate(f), BlockAlign(f), pcm))
  {
    WavLayout(pcm, f);
    ParseLaidOut(WavFile(pcm, f), pcm, f);
  }

  /** `ParseWav` on any byte string laid out as `WavLayout` describes. */
  lemma ParseLaidOut(w: seq<byte>, pcm: seq<byte>, f: Format)
    requires FitsHeader(|pcm|, f)
    requires |w| == 44 + |pcm| && w[44..] == pcm
    requires w[0..4] == Ascii("RIFF") && w[8..12] == Ascii("WAVE")
    requires w[12..16] == Ascii("fmt ") && w[36..40] == Ascii("data")
    requires ReadUint32LE(w, 4) == (36 + |pcm|) % Uint32Range
    requires ReadUint32LE(w, 16) == 16 && ReadUint16LE(w, 20) == 1
    requires ReadUint16LE(w, 22) == f.numChannels % Uint16Range
    requires ReadUint32LE(w, 24) == f.sampleRate % Uint32Range
    requires ReadUint32LE(w, 28) == ByteRate(f) % Uint32Range
    requires ReadUint16LE(w, 32) == BlockAlign(f) % Uint16Range
    requires ReadUint16LE(w, 34) == f.bitsPerSample % Uint16Range
    requires ReadUint32LE(w, 40) == |pcm| % Uint32Range
    ensures ParseWav(w) == Some(WavInfo(f, ByteRate(f), BlockAlign(f), pcm))
  {
    ModSmall(36 + |pcm|, Uint32Range);
    ModSmall(|pcm|, Uint32Range);
    ModSmall(f.sampleRate, Uint32Range);
    ModSmall(ByteRate(f), Uint32Range);
    ModSmall(f.numChannels, Uint16Range);
    ModSmall(BlockAlign(f), Uint16Range);
    ModSmall(f.bitsPerSample, Uint16Range);
    assert ReadUint32LE(w, 4) == |w| - 8 && ReadUint32LE(w, 40) == |w| - 44;
    assert Format(ReadUint32LE(w, 24), ReadUint16LE(w, 22), ReadUint16LE(w, 34)) == f;
  }

  lemma ModSmall(x: nat, m: nat)
    requires x < m
    ensures x % m == x
  {
  }
}
