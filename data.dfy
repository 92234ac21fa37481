/**
 * The data chunk (src/wavfile/datachunk.rs; src/wavefile/datachunk.rs and
 * src/wavefile/lib.rs hold the same read code). Unlike the other two chunks it
 * streams: each read delivers as many whole 4-byte samples as fit strictly
 * inside the caller's buffer, and the cursor `readCur` counts the bytes
 * delivered so far, the 8 header bytes included. A later read resumes at
 * sample index readCur / 4. Because of the 8 header bytes, the first resumed
 * read starts two samples past the last one delivered; later reads continue
 * with the next sample. The chunk reports end of stream once readCur reaches
 * sizeData + 4.
 */
module Data {
  import opened Util
  import opened Layout

  /** Number of whole samples a read can place after `start` in a buffer of `len` bytes. */
  function Room(len: nat, start: nat): nat
    requires start < len
  {
    (len - start - 1) / 4
  }

  /**
   * One read of the data chunk from cursor `cur`. The first read (cursor 0)
   * zeroes the buffer and writes the 8-byte header; every read then writes the
   * samples from index cur / 4 on, each only while the buffer has a byte to
   * spare after it. The split of the sample vector at cur / 4 panics when that
   * index is past the end, which the requires excludes.
   */
  function DataStep(magic: seq<byte>, sizeData: u32, samples: seq<F32>, cur: nat, buf: seq<byte>): (s: ReadStep)
    requires |magic| == 4
    requires cur < sizeData + 4 && |buf| > 8 ==> cur / 4 <= |samples|
    ensures |s.buf| == |buf|
    ensures s.result.Ok? ==> s.cursor == cur + s.result.count && s.result.count % 4 == 0
    ensures s.result.InsufficientBuffer? <==> cur < sizeData + 4 && |buf| <= 8
    ensures s.result.InsufficientBuffer? ==> s.cursor == cur && s.buf == buf
    ensures cur < sizeData + 4 && |buf| > 8 ==> s.result.Ok? && s.result.count < |buf|
    ensures cur >= sizeData + 4 ==> s == ReadStep(Ok(0), cur, buf)
  {
    if cur >= sizeData + 4 then ReadStep(Ok(0), cur, buf)
    else if |buf| <= 8 then ReadStep(InsufficientBuffer, cur, buf)
    else
      var start := if cur == 0 then 8 else 0;
      var base := if cur == 0 then DataHeaderImage(magic, sizeData) + Zeros(|buf| - 8) else buf;
      var workSlice := samples[cur / 4..];
      var k := Min(|workSlice|, Room(|buf|, start));
      ReadStep(Ok(start + 4 * k), cur + start + 4 * k, base[..start] + SampleBytes(workSlice[..k]) + base[start + 4 * k..])
  }

  /** A read that is neither at end of stream nor short: the header preamble, then j samples from cur / 4 on. */
  lemma DataStepFills(magic: seq<byte>, sizeData: u32, samples: seq<F32>, cur: nat, buf: seq<byte>,
                      base: seq<byte>, start: nat, j: nat)
    requires |magic| == 4 && cur < sizeData + 4 && |buf| > 8 && cur / 4 <= |samples|
    requires start == (if cur == 0 then 8 else 0)
    requires base == if cur == 0 then DataHeaderImage(magic, sizeData) + Zeros(|buf| - 8) else buf
    requires j == Min(|samples[cur / 4..]|, Room(|buf|, start))
    ensures DataStep(magic, sizeData, samples, cur, buf)
         == ReadStep(Ok(start + 4 * j), cur + start + 4 * j,
                     base[..start] + SampleBytes(samples[cur / 4..][..j]) + base[start + 4 * j..])
  {
  }

  /** Once end of stream is reported, every later read reports it again and changes nothing. */
  lemma DataEofSticky(magic: seq<byte>, sizeData: u32, samples: seq<F32>, cur: nat, buf: seq<byte>, next: seq<byte>)
    requires |magic| == 4 && cur >= sizeData + 4
    ensures var s := DataStep(magic, sizeData, samples, cur, buf);
      s == ReadStep(Ok(0), cur, buf) && DataStep(magic, sizeData, samples, s.cursor, next) == ReadStep(Ok(0), cur, next)
  {
  }

  /**
   * A mono chunk of n samples (size 4n) read from the start into a buffer of
   * more than 8 + 4n bytes: one read delivers the header and every sample in
   * order, and the next read reports end of stream.
   */
  lemma {:induction false} MonoOneShot(magic: seq<byte>, samples: seq<F32>, buf: seq<byte>, next: seq<byte>)
    requires |magic| == 4 && 4 * |samples| < U32_LIMIT
    requires |buf| > 8 + 4 * |samples|
    ensures var n := 4 * |samples|;
      var s := DataStep(magic, n, samples, 0, buf);
      s.result == Ok(8 + n) && s.cursor == 8 + n
      && s.buf == DataHeaderImage(magic, n) + SampleBytes(samples) + Zeros(|buf| - 8 - n)
      && DataStep(magic, n, samples, s.cursor, next) == ReadStep(Ok(0), 8 + n, next)
  {
    var n := 4 * |samples|;
    var base := DataHeaderImage(magic, n) + Zeros(|buf| - 8);
    assert Room(|buf|, 8) >= |samples|;
    assert samples[0..|samples|] == samples;
    var s := DataStep(magic, n, samples, 0, buf);
    assert base[..8] == DataHeaderImage(magic, n);
    assert base[8 + n..] == Zeros(|buf| - 8 - n);
  }

  /**
   * A read from the start that delivers k samples leaves the cursor at 8 + 4k,
   * so the next read resumes at sample k + 2: samples k and k + 1 are skipped.
   */
  lemma ResumeSkipsTwoSamples(magic: seq<byte>, sizeData: u32, samples: seq<F32>, buf: seq<byte>)
    requires |magic| == 4 && |buf| > 8
    ensures var s := DataStep(magic, sizeData, samples, 0, buf);
      s.result.Ok? && s.result.count >= 8
      && s.cursor / 4 == (s.result.count - 8) / 4 + 2
  {
  }

  /**
   * Every later read continues where the previous one stopped: a resumed read
   * that delivers k samples moves the next start index on by exactly k, so
   * only the first resumed read skips samples.
   */
  lemma ResumeContinues(magic: seq<byte>, sizeData: u32, samples: seq<F32>, cur: nat, buf: seq<byte>)
    requires |magic| == 4 && 0 < cur < sizeData + 4 && |buf| > 8 && cur / 4 <= |samples|
    ensures var s := DataStep(magic, sizeData, samples, cur, buf);
      s.result.Ok? && s.cursor / 4 == cur / 4 + s.result.count / 4
  {
  }

  /** A first read that is not short puts the chunk header in the first 8 bytes and reports at least them. */
  lemma FirstReadWritesHeader(magic: seq<byte>, sizeData: u32, samples: seq<F32>, buf: seq<byte>)
    requires |magic| == 4 && |buf| > 8
    ensures var s := DataStep(magic, sizeData, samples, 0, buf);
      s.result.Ok? && s.result.count >= 8 && s.buf[..8] == DataHeaderImage(magic, sizeData)
  {
    var s := DataStep(magic, sizeData, samples, 0, buf);
    var k := Min(|samples|, Room(|buf|, 8));
    var base := DataHeaderImage(magic, sizeData) + Zeros(|buf| - 8);
    DataStepFills(magic, sizeData, samples, 0, buf, base, 8, k);
    assert s.buf[..8] == base[..8];
  }

  /**
   * A resumed read writes the delivered samples at the front of the buffer and
   * leaves every byte after them as the caller left it (it does not zero the
   * buffer).
   */
  lemma ResumeKeepsTail(magic: seq<byte>, sizeData: u32, samples: seq<F32>, cur: nat, buf: seq<byte>)
    requires |magic| == 4 && 0 < cur < sizeData + 4 && |buf| > 8 && cur / 4 <= |samples|
    ensures var s := DataStep(magic, sizeData, samples, cur, buf);
      s.result.Ok? && s.result.count <= |buf|
      && s.buf[..s.result.count] == SampleBytes(samples[cur / 4..][..s.result.count / 4])
      && s.buf[s.result.count..] == buf[s.result.count..]
  {
    var s := DataStep(magic, sizeData, samples, cur, buf);
    var k := Min(|samples[cur / 4..]|, Room(|buf|, 0));
    DataStepFills(magic, sizeData, samples, cur, buf, buf, 0, k);
    assert buf[..0] == [];
  }

  /**
   * Four samples streamed through 13-byte buffers: the first read delivers the
   * header and sample 0, the second resumes at sample 3, the third reports 0.
   * Samples 1 and 2 never reach the output.
   */
  lemma SmallBufferDropsSamples(a: F32, b: F32, c: F32, d: F32, buf1: seq<byte>, buf2: seq<byte>, buf3: seq<byte>)
    requires |buf1| == 13 && |buf2| == 13 && |buf3| == 13
    ensures var samples := [a, b, c, d];
      var s1 := DataStep(DATA_LOWER, 16, samples, 0, buf1);
      var s2 := DataStep(DATA_LOWER, 16, samples, s1.cursor, buf2);
      var s3 := DataStep(DATA_LOWER, 16, samples, s2.cursor, buf3);
      s1.result == Ok(12) && s1.buf[..12] == DataHeaderImage(DATA_LOWER, 16) + LE32(a)
      && s2.result == Ok(4) && s2.buf[..4] == LE32(d)
      && s3.result == Ok(0)
  {
    var samples := [a, b, c, d];
    assert samples[0..1] == [a];
    assert samples[3..4] == [d];
    assert SampleBytes([a]) == LE32(a);
    assert SampleBytes([d]) == LE32(d);
    assert samples[4..4] == [];
  }

  /**
   * A stereo chunk declares 8 bytes per pushed sample. Read from the start into
   * a buffer that takes all its samples, it leaves the cursor below the end of
   * stream guard but past the end of the samples, so the next read's split
   * panics.
   */
  lemma StereoOneShotOverruns(samples: seq<F32>, buf: seq<byte>)
    requires |samples| >= 2 && 8 * |samples| < U32_LIMIT
    requires |buf| > 8 + 4 * |samples|
    ensures var s := DataStep(DATA_LOWER, 8 * |samples|, samples, 0, buf);
      s.result == Ok(8 + 4 * |samples|)
      && s.cursor < 8 * |samples| + 4 && s.cursor / 4 > |samples|
  {
    assert Room(|buf|, 8) >= |samples|;
  }

  lemma RoomGrows(len: nat, start: nat, j: nat)
    requires start + 4 * j + 4 < len
    ensures j + 1 <= Room(len, start)
  {
  }

  lemma RoomExhausted(len: nat, start: nat, j: nat)
    requires start < len && j <= Room(len, start) && start + 4 * j + 4 >= len
    ensures j == Room(len, start)
  {
  }

  /** Appending sample j right after the first j samples extends the written payload by one sample. */
  lemma SampleStep(base: seq<byte>, start: nat, w: seq<F32>, j: nat, before: seq<byte>, off: nat, t: seq<byte>)
    requires j < |w| && off == start + 4 * j && off + 4 < |base|
    requires before == base[..start] + SampleBytes(w[..j]) + base[off..]
    requires t == LE32(w[j])
    ensures Appended(t, before, off) == base[..start] + SampleBytes(w[..j + 1]) + base[off + 4..]
  {
    assert w[..j + 1] == w[..j] + [w[j]];
    SampleBytesAppend(w[..j], w[j]);
    assert before[..off] == base[..start] + SampleBytes(w[..j]);
    assert before[off + 4..] == base[off + 4..];
  }

  class DataChunk {
    const dataHeader: seq<byte>
    var sizeData: u32
    var sampleVector: seq<F32>
    var readCur: nat

    ghost predicate Valid()
    {
      |dataHeader| == 4
    }

    /** Default of src/wavfile/datachunk.rs and src/wavefile/lib.rs: magic "data". */
    constructor Default()
      ensures Valid() && dataHeader == DATA_LOWER
      ensures sizeData == 0 && sampleVector == [] && readCur == 0
    {
      dataHeader := DATA_LOWER;
      sizeData := 0;
      sampleVector := [];
      readCur := 0;
    }

    /** Default of src/wavefile/datachunk.rs: magic "DATA". */
    constructor DefaultUpper()
      ensures Valid() && dataHeader == DATA_UPPER
      ensures sizeData == 0 && sampleVector == [] && readCur == 0
    {
      dataHeader := DATA_UPPER;
      sizeData := 0;
      sampleVector := [];
      readCur := 0;
    }

    /** push_sample: appends at the end. */
    method PushSample(sample: F32)
      modifies this`sampleVector
      ensures sampleVector == old(sampleVector) + [sample]
      ensures Len() == old(Len()) + 1
    {
      sampleVector := sampleVector + [sample];
    }

    /** set_size: changes the declared size and nothing else. */
    method SetSize(size: u32)
      modifies this`sizeData
      ensures sizeData == size
    {
      sizeData := size;
    }

    /** len: the number of samples held. */
    function Len(): (n: nat)
      reads this
      ensures n == |sampleVector|
    {
      |sampleVector|
    }

    /**
     * The first read's preamble: zero the buffer, copy the magic in, then the
     * declared size through the 4-byte scratch buffer.
     */
    method WriteChunkHeader(buf: array<byte>, tmb: array<byte>) returns (off: nat)
      requires Valid() && buf.Length > 8 && tmb.Length == 4 && buf != tmb
      modifies buf, tmb
      ensures off == 8
      ensures buf[..] == DataHeaderImage(dataHeader, sizeData) + Zeros(buf.Length - 8)
    {
      ZeroBytes(buf);
      for i := 0 to 4
        invariant forall k :: 0 <= k < buf.Length ==> buf[k] == if k < i then dataHeader[k] else 0
      {
        buf[i] := dataHeader[i];
      }
      ghost var withMagic := dataHeader + Zeros(buf.Length - 4);
      assert buf[..] == withMagic;
      off := 4;
      var x := 0;
      x := DoTransmute(U32(sizeData), tmb, x);
      assert tmb[..] == LE32(sizeData);
      AppendedAfterPrefix(dataHeader, LE32(sizeData), buf.Length - 4);
      var n := AppendBytes(tmb[..], buf, off);
      assert buf[..] == dataHeader + LE32(sizeData) + Zeros(buf.Length - 8);
      off := off + n;
    }

    /**
     * One pass of the sample loop: the sample goes through the scratch buffer
     * and is appended at `off` only when a byte is left after it.
     */
    method EmitSample(sample: F32, buf: array<byte>, tmb: array<byte>, off: nat) returns (fits: bool, next: nat)
      requires tmb.Length == 4 && buf != tmb
      modifies buf, tmb
      ensures fits <==> off + 4 < buf.Length
      ensures fits ==> next == off + 4 && buf[..] == Appended(LE32(sample), old(buf[..]), off)
      ensures !fits ==> next == off && buf[..] == old(buf[..])
    {
      var x := 0;
      x := DoTransmute(F32Bits(sample), tmb, x);
      next := off;
      fits := off + 4 < buf.Length;
      if fits {
        var n := AppendBytes(tmb[..], buf, off);
        next := off + n;
      }
    }

    /**
     * The sample loop of a read: the samples of `workSlice` are emitted in
     * order until one does not fit.
     */
    method CopySamples(workSlice: seq<F32>, buf: array<byte>, tmb: array<byte>, start: nat,
                       ghost base: seq<byte>, ghost count: nat) returns (off: nat)
      requires start < buf.Length && tmb.Length == 4 && buf != tmb
      requires buf[..] == base && count == Min(|workSlice|, Room(buf.Length, start))
      modifies buf, tmb
      ensures off == start + 4 * count
      ensures buf[..] == base[..start] + SampleBytes(workSlice[..count]) + base[off..]
    {
      off := start;
      var j := 0;
      while j < |workSlice|
        invariant 0 <= j <= |workSlice|
        invariant off == start + 4 * j && off < buf.Length
        invariant j <= Room(buf.Length, start)
        invariant buf[..] == base[..start] + SampleBytes(workSlice[..j]) + base[off..]
      {
        ghost var before := buf[..];
        var fits;
        fits, off := EmitSample(workSlice[j], buf, tmb, off);
        if !fits {
          RoomExhausted(buf.Length, start, j);
          assert count == j;
          return;
        }
        RoomGrows(buf.Length, start, j);
        SampleStep(base, start, workSlice, j, before, off - 4, LE32(workSlice[j]));
        j := j + 1;
      }
      assert count == j;
    }

    /** Read::read, proved against DataStep. */
    method Read(buf: array<byte>) returns (r: ReadResult)
      requires Valid()
      requires readCur < sizeData + 4 && buf.Length > 8 ==> readCur / 4 <= |sampleVector|
      modifies this`readCur, buf
      ensures ReadStep(r, readCur, buf[..]) == DataStep(dataHeader, sizeData, sampleVector, old(readCur), old(buf[..]))
    {
      var outSize := sizeData + 4;
      var off := 0;
      if readCur >= outSize {
        return Ok(0);
      }
      if buf.Length > 8 {
        var tmb := new byte[4](_ => 0);
        ghost var cur := old(readCur);
        if readCur == 0 {
          off := WriteChunkHeader(buf, tmb);
        }
        ghost var start := off;
        ghost var base := buf[..];
        var workSlice := sampleVector[readCur / 4..];
        ghost var j := Min(|workSlice|, Room(buf.Length, start));
        ghost var expected := ReadStep(Ok(start + 4 * j), cur + start + 4 * j,
                                       base[..start] + SampleBytes(workSlice[..j]) + base[start + 4 * j..]);
        DataStepFills(dataHeader, sizeData, sampleVector, cur, old(buf[..]), base, start, j);
        off := CopySamples(workSlice, buf, tmb, off, base, j);
        readCur := readCur + off;
        r := Ok(off);
        assert ReadStep(r, readCur, buf[..]) == expected;
      } else {
        r := InsufficientBuffer;
      }
    }
  }

  /** create_mono_datachunk: the samples in order, declared size 4 bytes per sample. */
  method CreateMonoDataChunk(data: seq<F32>) returns (dc: DataChunk)
    requires (|data| % U32_LIMIT) * 4 < U32_LIMIT
    ensures fresh(dc) && dc.Valid() && dc.dataHeader == DATA_LOWER
    ensures dc.sampleVector == data && dc.readCur == 0
    ensures dc.sizeData == (|data| % U32_LIMIT) * 4
  {
    dc := new DataChunk.Default();
    for i := 0 to |data|
      invariant dc.sampleVector == data[..i]
      invariant dc.readCur == 0
    {
      dc.PushSample(data[i]);
      assert data[..i + 1] == data[..i] + [data[i]];
    }
    assert data[..|data|] == data;
    var len: u32 := dc.Len() % U32_LIMIT;
    len := len * 4;
    dc.SetSize(len);
  }

  /**
   * create_stereo_datachunk: left and right samples alternate for as many
   * frames as the shorter channel has; the declared size is 8 bytes per pushed
   * sample, twice the bytes the samples occupy.
   */
  method CreateStereoDataChunk(one: seq<F32>, two: seq<F32>) returns (dc: DataChunk)
    requires ((2 * Min(|one|, |two|)) % U32_LIMIT) * 8 < U32_LIMIT
    ensures fresh(dc) && dc.Valid() && dc.dataHeader == DATA_LOWER && dc.readCur == 0
    ensures |dc.sampleVector| == 2 * Min(|one|, |two|)
    ensures forall i :: 0 <= i < Min(|one|, |two|) ==>
      dc.sampleVector[2 * i] == one[i] && dc.sampleVector[2 * i + 1] == two[i]
    ensures dc.sizeData == (|dc.sampleVector| % U32_LIMIT) * 8
  {
    dc := new DataChunk.Default();
    var frames := Min(|one|, |two|);
    for i := 0 to frames
      invariant |dc.sampleVector| == 2 * i
      invariant forall k :: 0 <= k < i ==> dc.sampleVector[2 * k] == one[k] && dc.sampleVector[2 * k + 1] == two[k]
      invariant dc.readCur == 0
    {
      dc.PushSample(one[i]);
      dc.PushSample(two[i]);
    }
    var len: u32 := dc.Len() % U32_LIMIT;
    len := len * 8;
    dc.SetSize(len);
  }
}
