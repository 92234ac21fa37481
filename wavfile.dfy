/**
 * Packaging a data chunk as a mono WAVE file (src/wavfile/lib.rs; the older
 * src/wavefile/lib.rs has the same create_new). The header's RIFF size is the
 * data size plus 24 + 8, four bytes short of the standard's "file length
 * minus 8", which would also count the "WAVE" form type.
 */
module WavFile {
  import opened Util
  import opened Layout
  import opened Header
  import opened Format
  import opened Data

  /** The format fields create_mono_wav sets: one channel, the given rate and width. */
  function MonoFormat(rate: u32, bits: u32): (f: FormatFields)
    requires rate * (bits / 8) < U32_LIMIT
    ensures f.magic == FMT && f.chunkSize == 16 && f.formatTag == 1 && f.channels == 1
    ensures f.sampleRate == rate
  {
    FormatFields(FMT, 16, 1, 1, rate, 1 * rate * (bits / 8), (1 * (bits / 8)) % U16_LIMIT, bits % U16_LIMIT)
  }

  /** The RIFF size create_mono_wav declares for n samples of `bits` bits. */
  function MonoRiffSize(n: nat, bits: u32): (size: u32)
    requires (n % U32_LIMIT) * (bits / 8) + 32 < U32_LIMIT
    ensures size >= 32
  {
    (n % U32_LIMIT) * (bits / 8) + 24 + 8
  }

  /**
   * For a sample width that is a whole number of bytes, the fields satisfy the
   * WAVE format's own relations: a block is one sample of every channel, and
   * the byte rate is the sample rate times the block size.
   */
  lemma MonoFormatConsistent(rate: u32, bits: u32)
    requires bits % 8 == 0 && bits < U16_LIMIT && rate * (bits / 8) < U32_LIMIT
    ensures var f := MonoFormat(rate, bits);
      f.bitsPerSample == bits && f.blockAlign * 8 == f.channels * f.bitsPerSample
      && f.byteRate == f.sampleRate * f.blockAlign
  {
  }

  /** The bytes a successful read hands to its caller: the first `count` bytes of the buffer. */
  function Delivered(st: ReadStep): (out: seq<byte>)
    requires st.result.Ok? && st.result.count <= |st.buf|
    ensures |out| == st.result.count
  {
    st.buf[..st.result.count]
  }

  /**
   * The file create_mono_wav describes for n 32-bit samples, read chunk by
   * chunk into large enough buffers: the bytes delivered decode back to the
   * declared size, the format and the samples, and the declared RIFF size is
   * the stream length minus 12 rather than minus 8.
   */
  lemma MonoStreamRoundTrip(rate: u32, s: seq<F32>, buf1: seq<byte>, buf2: seq<byte>, buf3: seq<byte>)
      returns (size: u32, f: FormatFields, stream: seq<byte>)
    requires rate * 4 < U32_LIMIT && 4 * |s| + 32 < U32_LIMIT
    requires |buf1| >= 13 && |buf2| >= 24 && |buf3| > 8 + 4 * |s|
    ensures size == MonoRiffSize(|s|, 32) && f == MonoFormat(rate, 32)
    ensures HeaderStep(0, RIFF, size, WAVE, buf1).result == Ok(12)
    ensures FormatStep(24, f, 0, buf2).result == Ok(24)
    ensures DataStep(DATA_LOWER, 4 * |s|, s, 0, buf3).result == Ok(8 + 4 * |s|)
    ensures stream == Delivered(HeaderStep(0, RIFF, size, WAVE, buf1)) + Delivered(FormatStep(24, f, 0, buf2))
                      + Delivered(DataStep(DATA_LOWER, 4 * |s|, s, 0, buf3))
    ensures DecodeWave(stream) == Some(WaveInfo(size, f, 4 * |s|, s))
    ensures size == |stream| - 12
  {
    size := MonoRiffSize(|s|, 32);
    f := MonoFormat(rate, 32);
    assert |s| % U32_LIMIT == |s| && 32 / 8 == 4;
    assert size == 4 * |s| + 32;
    var hi := HeaderPrefix(size, buf1);
    var ci := FormatPrefix(f, buf2);
    var di := DataPrefix(s, buf3);
    stream := hi + ci + di;
    ConcatAssoc(hi + ci, DataHeaderImage(DATA_LOWER, 4 * |s|), SampleBytes(s));
    WaveRoundTrip(size, f, s);
  }

  lemma ConcatAssoc(a: seq<byte>, b: seq<byte>, c: seq<byte>)
    ensures a + (b + c) == a + b + c
  {
  }

  lemma HeaderPrefix(size: u32, buf: seq<byte>) returns (image: seq<byte>)
    requires |buf| >= 13
    ensures image == HeaderImage(RIFF, size, WAVE)
    ensures HeaderStep(0, RIFF, size, WAVE, buf).result == Ok(12)
    ensures Delivered(HeaderStep(0, RIFF, size, WAVE, buf)) == image
  {
    image := HeaderImage(RIFF, size, WAVE);
  }

  lemma FormatPrefix(f: FormatFields, buf: seq<byte>) returns (image: seq<byte>)
    requires |f.magic| == 4 && |buf| >= 24
    ensures image == FormatImage(f)
    ensures FormatStep(24, f, 0, buf).result == Ok(24)
    ensures Delivered(FormatStep(24, f, 0, buf)) == image
  {
    image := FormatImage(f);
  }

  lemma DataPrefix(s: seq<F32>, buf: seq<byte>) returns (image: seq<byte>)
    requires 4 * |s| < U32_LIMIT && |buf| > 8 + 4 * |s|
    ensures image == DataHeaderImage(DATA_LOWER, 4 * |s|) + SampleBytes(s)
    ensures DataStep(DATA_LOWER, 4 * |s|, s, 0, buf).result == Ok(8 + 4 * |s|)
    ensures Delivered(DataStep(DATA_LOWER, 4 * |s|, s, 0, buf)) == image
  {
    MonoOneShot(DATA_LOWER, s, buf, []);
    image := DataHeaderImage(DATA_LOWER, 4 * |s|) + SampleBytes(s);
  }

  /** A whole file with a single data chunk. */
  class Wav {
    const header: WavHeader
    const formatChunk: FormatChunk
    const data: DataChunk

    /** create_new: packages its three arguments and does nothing else. */
    constructor CreateNew(hdr: WavHeader, fmt: FormatChunk, dataIn: DataChunk)
      ensures header == hdr && formatChunk == fmt && data == dataIn
    {
      header := hdr;
      formatChunk := fmt;
      data := dataIn;
    }
  }

  /**
   * create_mono_wav: a fresh header and format chunk around the given data
   * chunk. Sizes are u32 values and the casts to u16 truncate; the requires
   * exclude the u32 overflows, which would panic.
   */
  method CreateMonoWav(dataIn: DataChunk, sampleRate: u32, sampleBits: u32) returns (w: Wav)
    requires sampleRate * (sampleBits / 8) < U32_LIMIT
    requires (|dataIn.sampleVector| % U32_LIMIT) * (sampleBits / 8) + 32 < U32_LIMIT
    ensures fresh(w) && fresh(w.header) && fresh(w.formatChunk)
    ensures w.data == dataIn
    ensures w.formatChunk.Valid() && w.formatChunk.readCur == 0
    ensures w.formatChunk.Fields() == MonoFormat(sampleRate, sampleBits)
    ensures w.header.Valid() && w.header.riffHeader == RIFF && w.header.waveHeader == WAVE
    ensures w.header.readCur == 0
    ensures w.header.fileSize == MonoRiffSize(|dataIn.sampleVector|, sampleBits)
  {
    var formatChunkSize: u32 := 24;
    var dataChunkHeaderSize: u32 := 8;

    var fmt := new FormatChunk.Default();
    var numChannels := 1;
    fmt.SetSampleRate(sampleRate);
    fmt.SetByteRate(numChannels * sampleRate * (sampleBits / 8));
    fmt.SetBlockAlign((numChannels * (sampleBits / 8)) % U16_LIMIT);
    fmt.SetBitsSample(sampleBits % U16_LIMIT);

    var dataSize: u32 := (dataIn.Len() % U32_LIMIT) * (sampleBits / 8);
    var totalSize: u32 := dataSize + formatChunkSize + dataChunkHeaderSize;

    var hdr := new WavHeader.Default();
    hdr.SetSize(totalSize);

    w := new Wav.CreateNew(hdr, fmt, dataIn);
  }
}
