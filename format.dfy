/**
 * The "fmt " chunk (src/wavefile/formatchunk.rs, and the same code in
 * src/wavefile/lib.rs). Its read is single-shot. The two snapshots differ only
 * in the end-of-stream guard: formatchunk.rs stops once the cursor reaches 24,
 * lib.rs once it reaches 12. A buffer shorter than 24 bytes is not an error:
 * the read reports 0 bytes and rewinds the cursor.
 */
module Format {
  import opened Util
  import opened Layout

  /** One read of the format chunk whose end-of-stream guard is `guard`. */
  function FormatStep(guard: nat, f: FormatFields, cur: nat, buf: seq<byte>): (s: ReadStep)
    requires |f.magic| == 4
    ensures |s.buf| == |buf|
    ensures s.result.Ok? && (s.result.count == 0 || s.result.count == 24)
    ensures cur >= guard ==> s == ReadStep(Ok(0), cur, buf)
    ensures cur < guard ==> s.cursor == s.result.count
    ensures s.result == Ok(0) ==> s.buf == buf
  {
    if cur >= guard then ReadStep(Ok(0), cur, buf)
    else if |buf| >= 24 then ReadStep(Ok(24), 24, FormatImage(f) + Zeros(|buf| - 24))
    else ReadStep(Ok(0), 0, buf)
  }

  /**
   * The two guards behave alike on every cursor a read can leave behind (0 or
   * 24): after a full read both report end of stream.
   */
  lemma FormatGuardsAgree(f: FormatFields, cur: nat, buf: seq<byte>)
    requires |f.magic| == 4
    requires cur == 0 || cur == 24
    ensures FormatStep(12, f, cur, buf) == FormatStep(24, f, cur, buf)
    ensures var s := FormatStep(24, f, cur, buf); s.cursor == 0 || s.cursor == 24
  {
  }

  /** A buffer of at least 24 bytes receives the chunk; decoding it gives back the fields. */
  lemma FormatReadDecodes(guard: nat, f: FormatFields, buf: seq<byte>)
    requires |f.magic| == 4 && guard > 0 && |buf| >= 24
    ensures var s := FormatStep(guard, f, 0, buf);
      s.result == Ok(24) && s.cursor == 24
      && DecodeFormat(s.buf[..24]) == Some(f)
      && forall i :: 24 <= i < |buf| ==> s.buf[i] == 0
  {
    var s := FormatStep(guard, f, 0, buf);
    assert s.buf[..24] == FormatImage(f);
    FormatRoundTrip(f);
  }

  /** A short buffer reads as end of stream: nothing written, cursor back at 0. */
  lemma FormatShortBufferLooksLikeEof(guard: nat, f: FormatFields, cur: nat, buf: seq<byte>)
    requires |f.magic| == 4 && cur < guard && |buf| < 24
    ensures FormatStep(guard, f, cur, buf) == ReadStep(Ok(0), 0, buf)
  {
  }

  class FormatChunk {
    const fmtHeader: seq<byte>
    const sizeWaveChunk: u32
    const waveTypeFormat: u16
    var numberChannels: u16
    var samplesSecond: u32
    var bytesSecond: u32
    var blockAlignment: u16
    var bitsSample: u16
    var readCur: nat

    ghost predicate Valid()
      reads this
    {
      |fmtHeader| == 4 && (readCur == 0 || readCur == 24)
    }

    /** The chunk's fields as a value. */
    ghost function Fields(): FormatFields
      reads this`numberChannels, this`samplesSecond, this`bytesSecond, this`blockAlignment, this`bitsSample
    {
      FormatFields(fmtHeader, sizeWaveChunk, waveTypeFormat, numberChannels,
                   samplesSecond, bytesSecond, blockAlignment, bitsSample)
    }

    /**
     * Default: "fmt ", chunk size 16, format tag 1 (linear PCM, although the
     * samples are 32-bit floats), one channel, 32 bits, rates and alignment 0.
     */
    constructor Default()
      ensures Valid()
      ensures Fields() == FormatFields(FMT, 16, 1, 1, 0, 0, 0, 32)
      ensures readCur == 0
    {
      fmtHeader := FMT;
      sizeWaveChunk := 16;
      waveTypeFormat := 1;
      numberChannels := 1;
      samplesSecond := 0;
      bytesSecond := 0;
      blockAlignment := 0;
      bitsSample := 32;
      readCur := 0;
    }

    method SetNumberChannels(chans: u16)
      modifies this`numberChannels
      ensures numberChannels == chans
    {
      numberChannels := chans;
    }

    method SetSampleRate(rate: u32)
      modifies this`samplesSecond
      ensures samplesSecond == rate
    {
      samplesSecond := rate;
    }

    method SetByteRate(bytes: u32)
      modifies this`bytesSecond
      ensures bytesSecond == bytes
    {
      bytesSecond := bytes;
    }

    method SetBlockAlign(align: u16)
      modifies this`blockAlignment
      ensures blockAlignment == align
    {
      blockAlignment := align;
    }

    method SetBitsSample(bits: u16)
      modifies this`bitsSample
      ensures bitsSample == bits
    {
      bitsSample := bits;
    }

    /** Read::read of src/wavefile/formatchunk.rs (guard 24). */
    method Read(buf: array<byte>) returns (r: ReadResult)
      requires Valid()
      modifies this`readCur, buf
      ensures Valid()
      ensures ReadStep(r, readCur, buf[..]) == FormatStep(24, Fields(), old(readCur), old(buf[..]))
    {
      r := ReadGuarded(24, buf);
    }

    /** Read::read of the older src/wavefile/lib.rs (guard 12). */
    method ReadLegacy(buf: array<byte>) returns (r: ReadResult)
      requires Valid()
      modifies this`readCur, buf
      ensures Valid()
      ensures ReadStep(r, readCur, buf[..]) == FormatStep(12, Fields(), old(readCur), old(buf[..]))
    {
      r := ReadGuarded(12, buf);
    }

    /**
     * The seven do_transmute! calls that put the fields after the magic into
     * the zeroed scratch buffer, each at the offset the previous one advanced to.
     */
    method WriteFields(tmb: array<byte>, offset: nat) returns (next: nat)
      requires |fmtHeader| == 4 && offset == 4
      requires tmb.Length == 24 && tmb[..] == fmtHeader + Zeros(20)
      modifies tmb
      ensures next == 24 && tmb[..] == FormatImage(Fields())
    {
      ghost var p := fmtHeader;
      next := TransmuteAfterPrefix(U32(sizeWaveChunk), tmb, p, offset);
      p := p + LE32(sizeWaveChunk);
      next := TransmuteAfterPrefix(U16(waveTypeFormat), tmb, p, next);
      p := p + LE16(waveTypeFormat);
      next := TransmuteAfterPrefix(U16(numberChannels), tmb, p, next);
      p := p + LE16(numberChannels);
      next := TransmuteAfterPrefix(U32(samplesSecond), tmb, p, next);
      p := p + LE32(samplesSecond);
      next := TransmuteAfterPrefix(U32(bytesSecond), tmb, p, next);
      p := p + LE32(bytesSecond);
      next := TransmuteAfterPrefix(U16(blockAlignment), tmb, p, next);
      p := p + LE16(blockAlignment);
      next := TransmuteAfterPrefix(U16(bitsSample), tmb, p, next);
      p := p + LE16(bitsSample);
      assert p + Zeros(0) == p;
    }

    /** The magic, then the seven fields, written into the zeroed scratch buffer. */
    method FillScratch(tmb: array<byte>) returns (next: nat)
      requires |fmtHeader| == 4
      requires tmb.Length == 24 && tmb[..] == Zeros(24)
      modifies tmb
      ensures next == 24 && tmb[..] == FormatImage(Fields())
    {
      for i := 0 to 4
        invariant tmb[..] == fmtHeader[..i] + Zeros(24 - i)
      {
        tmb[i] := fmtHeader[i];
      }
      assert fmtHeader[..4] == fmtHeader;
      next := WriteFields(tmb, 4);
    }

    /** The read body shared by both snapshots, after their guards. */
    method ReadGuarded(guard: nat, buf: array<byte>) returns (r: ReadResult)
      requires Valid() && guard > 0
      modifies this`readCur, buf
      ensures Valid()
      ensures ReadStep(r, readCur, buf[..]) == FormatStep(guard, Fields(), old(readCur), old(buf[..]))
    {
      if readCur >= guard {
        return Ok(0);
      }
      ghost var f := Fields();
      ghost var step := FormatStep(guard, f, readCur, buf[..]);
      var offset := 0;
      if buf.Length >= 24 {
        assert step == ReadStep(Ok(24), 24, FormatImage(f) + Zeros(buf.Length - 24));
        var tmb := new byte[24](_ => 0);
        ZeroBytes(buf);
        offset := FillScratch(tmb);
        var _ := AppendToZeroed(tmb[..], buf);
      } else {
        assert step == ReadStep(Ok(0), 0, buf[..]);
      }
      readCur := offset;
      r := Ok(offset);
    }
  }
}
