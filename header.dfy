/**
 * The RIFF header chunk (src/wavefile/wavheader.rs; src/wavefile/lib.rs holds
 * the same code under the name WaveHeader). Its read is single-shot: one call
 * with a buffer of at least 12 bytes delivers the whole header, every later
 * call reports end of stream.
 */
module Header {
  import opened Util
  import opened Layout

  /**
   * One read of the header from cursor `cur` into `buf`. The header is
   * assembled in a 13-byte scratch buffer and copied only if all 13 bytes fit,
   * so a buffer of exactly 12 bytes is left zeroed although 12 is reported.
   */
  function HeaderStep(cur: nat, riff: seq<byte>, fileSize: u32, wave: seq<byte>, buf: seq<byte>): (s: ReadStep)
    requires |riff| == 4 && |wave| == 4
    ensures |s.buf| == |buf|
    ensures cur >= 12 ==> s == ReadStep(Ok(0), cur, buf)
    ensures s.result.InsufficientBuffer? <==> cur < 12 && |buf| < 12
    ensures s.result.InsufficientBuffer? ==> s.cursor == cur && s.buf == buf
    ensures cur < 12 && |buf| >= 12 ==>
      s.result == Ok(12) && s.cursor == 12 && forall i :: 12 <= i < |buf| ==> s.buf[i] == 0
  {
    if cur >= 12 then ReadStep(Ok(0), cur, buf)
    else if |buf| < 12 then ReadStep(InsufficientBuffer, cur, buf)
    else if |buf| >= 13 then ReadStep(Ok(12), 12, HeaderImage(riff, fileSize, wave) + Zeros(|buf| - 12))
    else ReadStep(Ok(12), 12, Zeros(|buf|))
  }

  /** After a successful read every further read reports end of stream and touches nothing. */
  lemma HeaderEofAfterRead(cur: nat, riff: seq<byte>, fileSize: u32, wave: seq<byte>, buf: seq<byte>, next: seq<byte>)
    requires |riff| == 4 && |wave| == 4
    requires HeaderStep(cur, riff, fileSize, wave, buf).result.Ok?
    ensures var c := HeaderStep(cur, riff, fileSize, wave, buf).cursor;
      HeaderStep(c, riff, fileSize, wave, next) == ReadStep(Ok(0), c, next)
  {
  }

  /** A buffer of 13 or more bytes receives a header that decodes to the declared size. */
  lemma HeaderReadDecodes(fileSize: u32, buf: seq<byte>)
    requires |buf| >= 13
    ensures var s := HeaderStep(0, RIFF, fileSize, WAVE, buf);
      s.result == Ok(12) && s.cursor == 12
      && DecodeHeader(s.buf[..12]) == Some(fileSize)
      && forall i :: 12 <= i < |buf| ==> s.buf[i] == 0
  {
    var s := HeaderStep(0, RIFF, fileSize, WAVE, buf);
    assert s.buf[..12] == HeaderImage(RIFF, fileSize, WAVE);
    HeaderRoundTrip(fileSize);
  }

  /** A 12-byte buffer is reported as filled but holds no header at all. */
  lemma TwelveByteBufferLosesHeader(fileSize: u32, buf: seq<byte>)
    requires |buf| == 12
    ensures var s := HeaderStep(0, RIFF, fileSize, WAVE, buf);
      s.result == Ok(12) && s.buf == Zeros(12) && DecodeHeader(s.buf) == None
  {
    var s := HeaderStep(0, RIFF, fileSize, WAVE, buf);
    assert s.buf[0] == 0 != RIFF[0];
    assert s.buf[..4] != RIFF;
  }

  /**
   * Appending the 13-byte scratch buffer (the 12-byte image and a spare zero)
   * at offset 0 of n zero bytes: the image followed by zeros when all 13 fit,
   * the zeros unchanged otherwise.
   */
  lemma ScratchCopied(image: seq<byte>, n: nat)
    requires |image| == 12
    ensures n >= 13 ==> Appended(image + [0], Zeros(n), 0) == image + Zeros(n - 12)
    ensures n < 13 ==> Appended(image + [0], Zeros(n), 0) == Zeros(n)
  {
    if n >= 13 {
      var t := image + [0];
      var a := Appended(t, Zeros(n), 0);
      AppendedOutside(t, Zeros(n), 0);
      forall j | 0 <= j < n ensures a[j] == (image + Zeros(n - 12))[j] {
        if j < 13 {
          assert a[j] == a[0..13][j] == t[j];
        }
      }
    }
  }

  class WavHeader {
    const riffHeader: seq<byte>
    var fileSize: u32
    const waveHeader: seq<byte>
    var readCur: nat

    ghost predicate Valid()
    {
      |riffHeader| == 4 && |waveHeader| == 4
    }

    /** Default: the "RIFF" and "WAVE" magics, size 0, nothing read yet. */
    constructor Default()
      ensures Valid()
      ensures riffHeader == RIFF && waveHeader == WAVE
      ensures fileSize == 0 && readCur == 0
    {
      riffHeader := RIFF;
      fileSize := 0;
      waveHeader := WAVE;
      readCur := 0;
    }

    /** set_size: changes the size field and nothing else. */
    method SetSize(size: u32)
      modifies this`fileSize
      ensures fileSize == size
    {
      fileSize := size;
    }

    /** The two magics and the size, assembled in the zeroed 13-byte scratch buffer. */
    method FillScratch(tmb: array<byte>) returns (off: nat)
      requires Valid() && tmb.Length == 13 && tmb[..] == Zeros(13)
      modifies tmb
      ensures off == 8
      ensures tmb[..] == HeaderImage(riffHeader, fileSize, waveHeader) + [0]
    {
      off := 4;
      for i := 0 to 4
        invariant forall j :: 0 <= j < 13 ==>
          tmb[j] == if j < i then riffHeader[j] else if 8 <= j < 8 + i then waveHeader[j - 8] else 0
      {
        var x := i + 8;
        tmb[i] := riffHeader[i];
        tmb[x] := waveHeader[i];
      }
      assert tmb[..] == riffHeader + Zeros(4) + waveHeader + [0];
      off := DoTransmute(U32(fileSize), tmb, off);
      ghost var e := riffHeader + LE32(fileSize) + waveHeader + [0];
      forall j | 0 <= j < 13 ensures tmb[j] == e[j] {
        if 4 <= j < 8 {
          assert tmb[j] == tmb[4..8][j - 4];
        }
      }
    }

    /** Read::read, proved against HeaderStep. */
    method Read(buf: array<byte>) returns (r: ReadResult)
      requires Valid()
      modifies this`readCur, buf
      ensures ReadStep(r, readCur, buf[..]) == HeaderStep(old(readCur), riffHeader, fileSize, waveHeader, old(buf[..]))
    {
      if readCur >= 12 {
        return Ok(0);
      }
      ghost var step := HeaderStep(readCur, riffHeader, fileSize, waveHeader, buf[..]);
      if buf.Length >= 12 {
        ZeroBytes(buf);
        var tmb := new byte[13](_ => 0);
        var off := FillScratch(tmb);
        var _ := AppendBytes(tmb[..], buf, 0);
        ScratchCopied(HeaderImage(riffHeader, fileSize, waveHeader), buf.Length);
        off := 12;
        readCur := off;
        r := Ok(off);
      } else {
        assert step == ReadStep(InsufficientBuffer, readCur, buf[..]);
        r := InsufficientBuffer;
      }
    }
  }
}
