/**
 * The byte layout of a RIFF WAVE file as this encoder writes it (the Microsoft/IBM
 * Multimedia Programming Interface and Data Specifications 1.0, WAVE form): a
 * 12-byte RIFF header, a 24-byte "fmt " chunk and a data chunk with an 8-byte
 * header. Also the result type of the chunks' read operations, and decoders
 * that invert each image.
 */
module Layout {
  import opened Util

  datatype Option<T> = None | Some(value: T)

  /** The outcome of one read: bytes produced (0 is end of stream), or a buffer too small. */
  datatype ReadResult = Ok(count: nat) | InsufficientBuffer

  /** One read call as a state transition: its result, the new cursor, the caller's buffer afterwards. */
  datatype ReadStep = ReadStep(result: ReadResult, cursor: nat, buf: seq<byte>)

  const RIFF: seq<byte> := [0x52, 0x49, 0x46, 0x46]        // "RIFF"
  const WAVE: seq<byte> := [0x57, 0x41, 0x56, 0x45]        // "WAVE"
  const FMT: seq<byte> := [0x66, 0x6D, 0x74, 0x20]         // "fmt "
  const DATA_LOWER: seq<byte> := [0x64, 0x61, 0x74, 0x61]  // "data"
  const DATA_UPPER: seq<byte> := [0x44, 0x41, 0x54, 0x41]  // "DATA"

  /** The fields of a format chunk, in the order they are written. */
  datatype FormatFields = FormatFields(
    magic: seq<byte>,
    chunkSize: u32,
    formatTag: u16,
    channels: u16,
    sampleRate: u32,
    byteRate: u32,
    blockAlign: u16,
    bitsPerSample: u16)

  /** The 12-byte RIFF header: magic, size, form type. */
  function HeaderImage(riff: seq<byte>, fileSize: u32, wave: seq<byte>): (r: seq<byte>)
    requires |riff| == 4 && |wave| == 4
    ensures |r| == 12
    ensures r[..4] == riff && r[4..8] == LE32(fileSize) && r[8..] == wave
  {
    riff + LE32(fileSize) + wave
  }

  /** The 24-byte format chunk. */
  function FormatImage(f: FormatFields): (r: seq<byte>)
    requires |f.magic| == 4
    ensures |r| == 24
    ensures r[..4] == f.magic && r[4..8] == LE32(f.chunkSize)
    ensures r[8..10] == LE16(f.formatTag) && r[10..12] == LE16(f.channels)
    ensures r[12..16] == LE32(f.sampleRate) && r[16..20] == LE32(f.byteRate)
    ensures r[20..22] == LE16(f.blockAlign) && r[22..] == LE16(f.bitsPerSample)
  {
    f.magic + LE32(f.chunkSize) + LE16(f.formatTag) + LE16(f.channels)
      + LE32(f.sampleRate) + LE32(f.byteRate) + LE16(f.blockAlign) + LE16(f.bitsPerSample)
  }

  /** The 8-byte data chunk header: magic and declared payload length. */
  function DataHeaderImage(magic: seq<byte>, sizeData: u32): (r: seq<byte>)
    requires |magic| == 4
    ensures |r| == 8
    ensures r[..4] == magic && r[4..] == LE32(sizeData)
  {
    magic + LE32(sizeData)
  }

  /** The payload: each sample's four bytes, in order. */
  function SampleBytes(s: seq<F32>): (r: seq<byte>)
    ensures |r| == 4 * |s|
  {
    if s == [] then [] else LE32(s[0]) + SampleBytes(s[1..])
  }

  lemma {:induction false} SampleBytesAppend(s: seq<F32>, x: F32)
    ensures SampleBytes(s + [x]) == SampleBytes(s) + LE32(x)
  {
    if s == [] {
      assert [x][1..] == [];
    } else {
      assert (s + [x])[1..] == s[1..] + [x];
      SampleBytesAppend(s[1..], x);
    }
  }

  /** Sample i occupies bytes [4i, 4i+4) of the payload. */
  lemma {:induction false} SampleBytesAt(s: seq<F32>, i: nat)
    requires i < |s|
    ensures SampleBytes(s)[4 * i..4 * i + 4] == LE32(s[i])
  {
    if i > 0 {
      SampleBytesAt(s[1..], i - 1);
      assert SampleBytes(s)[4 * i..4 * i + 4] == SampleBytes(s[1..])[4 * (i - 1)..4 * (i - 1) + 4];
    }
  }

  function DecodeSamples(b: seq<byte>): (s: seq<F32>)
    requires |b| % 4 == 0
    decreases |b|
  {
    if b == [] then [] else [DecodeLE32(b[..4])] + DecodeSamples(b[4..])
  }

  lemma {:induction false} SamplesRoundTrip(s: seq<F32>)
    ensures DecodeSamples(SampleBytes(s)) == s
  {
    if s != [] {
      var b := SampleBytes(s);
      assert b[..4] == LE32(s[0]);
      assert b[4..] == SampleBytes(s[1..]);
      LE32RoundTrip(s[0]);
      SamplesRoundTrip(s[1..]);
    }
  }

  /** Reads the file size back from a RIFF header, if the two magics are present. */
  function DecodeHeader(b: seq<byte>): Option<u32>
  {
    if |b| >= 12 && b[..4] == RIFF && b[8..12] == WAVE then Some(DecodeLE32(b[4..8])) else None
  }

  /** Reads the fields back from a format chunk. */
  function DecodeFormat(b: seq<byte>): Option<FormatFields>
  {
    if |b| < 24 then None
    else Some(FormatFields(b[..4], DecodeLE32(b[4..8]), DecodeLE16(b[8..10]), DecodeLE16(b[10..12]),
      DecodeLE32(b[12..16]), DecodeLE32(b[16..20]), DecodeLE16(b[20..22]), DecodeLE16(b[22..24])))
  }

  lemma HeaderRoundTrip(fileSize: u32)
    ensures DecodeHeader(HeaderImage(RIFF, fileSize, WAVE)) == Some(fileSize)
  {
    var b := HeaderImage(RIFF, fileSize, WAVE);
    assert b[..4] == RIFF && b[4..8] == LE32(fileSize) && b[8..12] == WAVE;
    LE32RoundTrip(fileSize);
  }

  lemma FormatRoundTrip(f: FormatFields)
    requires |f.magic| == 4
    ensures DecodeFormat(FormatImage(f)) == Some(f)
  {
    var b := FormatImage(f);
    assert b[..4] == f.magic;
    assert b[4..8] == LE32(f.chunkSize);
    assert b[8..10] == LE16(f.formatTag);
    assert b[10..12] == LE16(f.channels);
    assert b[12..16] == LE32(f.sampleRate);
    assert b[16..20] == LE32(f.byteRate);
    assert b[20..22] == LE16(f.blockAlign);
    assert b[22..24] == LE16(f.bitsPerSample);
    LE32RoundTrip(f.chunkSize);
    LE16RoundTrip(f.formatTag);
    LE16RoundTrip(f.channels);
    LE32RoundTrip(f.sampleRate);
    LE32RoundTrip(f.byteRate);
    LE16RoundTrip(f.blockAlign);
    LE16RoundTrip(f.bitsPerSample);
  }

  /** What a reader of a whole file recovers. */
  datatype WaveInfo = WaveInfo(riffSize: u32, format: FormatFields, dataSize: u32, samples: seq<F32>)

  /**
   * Decodes a whole file laid out as header, format chunk, data chunk with the
   * standard's lower-case "data" magic and a payload as long as declared.
   */
  function DecodeWave(b: seq<byte>): Option<WaveInfo>
  {
    if |b| < 44 then None
    else
      match DecodeHeader(b[..12])
      case None => None
      case Some(riffSize) =>
        match DecodeFormat(b[12..36])
        case None => None
        case Some(f) =>
          if f.magic != FMT || b[36..40] != DATA_LOWER then None
          else
            var dataSize := DecodeLE32(b[40..44]);
            if |b| - 44 != dataSize || dataSize % 4 != 0 then None
            else Some(WaveInfo(riffSize, f, dataSize, DecodeSamples(b[44..])))
  }

  lemma ConcatSlices(h: seq<byte>, f: seq<byte>, d: seq<byte>, p: seq<byte>)
    requires |h| == 12 && |f| == 24 && |d| == 8
    ensures (h + f + d + p)[..12] == h && (h + f + d + p)[12..36] == f
    ensures (h + f + d + p)[36..40] == d[..4] && (h + f + d + p)[40..44] == d[4..]
    ensures (h + f + d + p)[44..] == p
  {
    var b := h + f + d + p;
    var hfd := h + f + d;
    assert b == hfd + p;
    assert b[..44] == hfd && b[44..] == p;
    assert hfd == (h + f) + d;
    assert hfd[..36] == h + f && hfd[36..] == d;
    assert b[..12] == (h + f)[..12] == h;
    assert b[12..36] == (h + f)[12..] == f;
    assert b[36..40] == d[..4];
    assert b[40..44] == d[4..];
  }

  lemma DecodeWaveParts(b: seq<byte>, riffSize: u32, f: FormatFields, s: seq<F32>)
    requires |b| == 44 + 4 * |s| && f.magic == FMT && 4 * |s| < U32_LIMIT
    requires DecodeHeader(b[..12]) == Some(riffSize)
    requires DecodeFormat(b[12..36]) == Some(f)
    requires b[36..40] == DATA_LOWER && DecodeLE32(b[40..44]) == 4 * |s|
    requires DecodeSamples(b[44..]) == s
    ensures DecodeWave(b) == Some(WaveInfo(riffSize, f, 4 * |s|, s))
  {
  }

  /** Decoding inverts the three images laid end to end. */
  lemma WaveRoundTrip(riffSize: u32, f: FormatFields, s: seq<F32>)
    requires f.magic == FMT
    requires 4 * |s| < U32_LIMIT
    ensures DecodeWave(HeaderImage(RIFF, riffSize, WAVE) + FormatImage(f)
                       + DataHeaderImage(DATA_LOWER, 4 * |s|) + SampleBytes(s))
         == Some(WaveInfo(riffSize, f, 4 * |s|, s))
  {
    var h := HeaderImage(RIFF, riffSize, WAVE);
    var fi := FormatImage(f);
    var d := DataHeaderImage(DATA_LOWER, 4 * |s|);
    var p := SampleBytes(s);
    ConcatSlices(h, fi, d, p);
    var b := h + fi + d + p;
    assert b[36..40] == DATA_LOWER && b[40..44] == LE32(4 * |s|) by {
      assert d[..4] == DATA_LOWER && d[4..] == LE32(4 * |s|);
    }
    HeaderRoundTrip(riffSize);
    FormatRoundTrip(f);
    LE32RoundTrip(4 * |s|);
    SamplesRoundTrip(s);
    DecodeWaveParts(b, riffSize, f, s);
  }
}
