/**
 * Byte helpers of the WAVE encoder (src/wavfile/util.rs; the older snapshot
 * src/wavefile/lib.rs carries the same helpers): fixed-width integers, their
 * little-endian byte images, and the bounded copies into caller buffers from
 * which every chunk is assembled.
 *
 * The source writes integers by reinterpreting their memory as bytes. The model
 * fixes that representation to little-endian, the byte order of the hosts the
 * encoder was written for and the byte order the RIFF format requires.
 */
module Util {

  type byte = x: int | 0 <= x < 0x100
  type u16 = x: int | 0 <= x < 0x1_0000
  type u32 = x: int | 0 <= x < 0x1_0000_0000

  const U16_LIMIT: int := 0x1_0000
  const U32_LIMIT: int := 0x1_0000_0000

  /** A 32-bit float sample, represented by its IEEE-754 bit pattern. */
  type F32 = u32

  /** The values that do_transmute! converts into bytes. */
  datatype Scalar = U16(h: u16) | U32(w: u32) | F32Bits(f: F32)

  function Min(a: int, b: int): int { if a <= b then a else b }

  /** n zero bytes. */
  function Zeros(n: nat): (r: seq<byte>)
    ensures |r| == n
    ensures forall i :: 0 <= i < n ==> r[i] == 0
  {
    seq(n, _ => 0)
  }

  /** Little-endian image of a 16-bit value. */
  function LE16(x: u16): (r: seq<byte>)
    ensures |r| == 2
    ensures x < 0x100 ==> r == [x, 0]
    ensures r[1] == 0 <==> x < 0x100
  {
    [x % 0x100, x / 0x100]
  }

  /** Little-endian image of a 32-bit value. */
  function LE32(x: u32): (r: seq<byte>)
    ensures |r| == 4
    ensures x < 0x100 ==> r == [x, 0, 0, 0]
    ensures r[3] == 0 <==> x < 0x100_0000
  {
    [x % 0x100, (x / 0x100) % 0x100, (x / 0x1_0000) % 0x100, x / 0x100_0000]
  }

  function DecodeLE16(b: seq<byte>): u16
    requires |b| == 2
  {
    b[0] as int + 0x100 * b[1] as int
  }

  function DecodeLE32(b: seq<byte>): u32
    requires |b| == 4
  {
    b[0] as int + 0x100 * b[1] as int + 0x1_0000 * b[2] as int + 0x100_0000 * b[3] as int
  }

  lemma LE16RoundTrip(x: u16)
    ensures DecodeLE16(LE16(x)) == x
  {
  }

  lemma LE16Inverse(b: seq<byte>)
    requires |b| == 2
    ensures LE16(DecodeLE16(b)) == b
  {
    var x := DecodeLE16(b);
    assert x % 0x100 == b[0] && x / 0x100 == b[1];
  }

  lemma LE32RoundTrip(x: u32)
    ensures DecodeLE32(LE32(x)) == x
  {
    var q1: nat := x / 0x100;
    var q2: nat := q1 / 0x100;
    var q3: nat := q2 / 0x100;
    var r1: nat := x % 0x100;
    var r2: nat := r1 + 0x100 * (q1 % 0x100);
    var r3: nat := r2 + 0x1_0000 * (q2 % 0x100);
    assert x == r1 + 0x100 * q1;
    assert q1 == q1 % 0x100 + 0x100 * q2;
    assert q2 == q2 % 0x100 + 0x100 * q3;
    DivModUnique(x, 0x1_0000, q2, r2);
    DivModUnique(x, 0x100_0000, q3, r3);
  }

  lemma LE32Inverse(b: seq<byte>)
    requires |b| == 4
    ensures LE32(DecodeLE32(b)) == b
  {
    var x: nat := DecodeLE32(b);
    var r1: nat := b[0] as nat;
    var r2: nat := r1 + 0x100 * b[1] as nat;
    var r3: nat := r2 + 0x1_0000 * b[2] as nat;
    var q2: nat := b[2] as nat + 0x100 * b[3] as nat;
    var q1: nat := b[1] as nat + 0x100 * q2;
    DivModUnique(x, 0x100, q1, r1);
    DivModUnique(x, 0x1_0000, q2, r2);
    DivModUnique(x, 0x100_0000, b[3] as nat, r3);
    DivModUnique(q1, 0x100, q2, b[1] as nat);
    DivModUnique(q2, 0x100, b[3] as nat, b[2] as nat);
  }

  /** The bytes do_transmute! produces for a value: its little-endian image. */
  function Encode(s: Scalar): (r: seq<byte>)
    ensures |r| == (if s.U16? then 2 else 4)
  {
    match s
    case U16(h) => LE16(h)
    case U32(w) => LE32(w)
    case F32Bits(f) => LE32(f)
  }

  /**
   * The buffer after `bytes` is appended at `offset`: copied in when it fits
   * entirely, otherwise the buffer is left as it was.
   */
  function Appended(bytes: seq<byte>, buf: seq<byte>, offset: nat): (r: seq<byte>)
    ensures |r| == |buf|
    ensures |bytes| + offset <= |buf| ==> r[offset..offset + |bytes|] == bytes
    ensures |bytes| + offset > |buf| ==> r == buf
  {
    if |bytes| + offset <= |buf| then buf[..offset] + bytes + buf[offset + |bytes|..] else buf
  }

  /** Appending changes no byte outside the window [offset, offset + |bytes|). */
  lemma AppendedOutside(bytes: seq<byte>, buf: seq<byte>, offset: nat)
    ensures forall i :: 0 <= i < |buf| && !(offset <= i < offset + |bytes|) ==> Appended(bytes, buf, offset)[i] == buf[i]
  {
  }

  /** Appending a value as long as the whole buffer replaces the buffer. */
  lemma AppendedWhole(bytes: seq<byte>, buf: seq<byte>)
    requires |bytes| == |buf|
    ensures Appended(bytes, buf, 0) == bytes
  {
    assert Appended(bytes, buf, 0) == Appended(bytes, buf, 0)[0..|bytes|];
  }

  /** Appending right after a written prefix into a zeroed tail extends the prefix. */
  lemma AppendedAfterPrefix(p: seq<byte>, bytes: seq<byte>, n: nat)
    requires |bytes| <= n
    ensures Appended(bytes, p + Zeros(n), |p|) == p + bytes + Zeros(n - |bytes|)
  {
    var r := Appended(bytes, p + Zeros(n), |p|);
    var e := p + bytes + Zeros(n - |bytes|);
    AppendedOutside(bytes, p + Zeros(n), |p|);
    assert |r| == |e|;
    forall i | 0 <= i < |r| ensures r[i] == e[i] {
      if |p| <= i < |p| + |bytes| {
        assert r[i] == r[|p|..|p| + |bytes|][i - |p|];
      }
    }
  }

  /**
   * append_bytes: copies `bytes` into `buf` at `offset` when they fit, does
   * nothing otherwise, and in both cases returns |bytes|.
   */
  method AppendBytes(bytes: seq<byte>, buf: array<byte>, offset: nat) returns (n: nat)
    modifies buf
    ensures n == |bytes|
    ensures buf[..] == Appended(bytes, old(buf[..]), offset)
  {
    if |bytes| + offset <= buf.Length {
      for i := 0 to |bytes|
        invariant forall j :: 0 <= j < buf.Length ==>
          buf[j] == if offset <= j < offset + i then bytes[j - offset] else old(buf[j])
      {
        buf[i + offset] := bytes[i];
      }
      ghost var e := Appended(bytes, old(buf[..]), offset);
      forall j | 0 <= j < buf.Length ensures buf[j] == e[j] {
        if offset <= j < offset + |bytes| {
          assert e[j] == e[offset..offset + |bytes|][j - offset];
        }
      }
    }
    n := |bytes|;
  }

  /** zero_u8_array: every element becomes 0, the length stays. */
  method ZeroBytes(targ: array<byte>)
    modifies targ
    ensures targ[..] == Zeros(targ.Length)
  {
    for i := 0 to targ.Length
      invariant forall j :: 0 <= j < i ==> targ[j] == 0
    {
      targ[i] := 0;
    }
  }

  /**
   * u16_to_u8: writes exactly the two bytes output[0..2). The copy is
   * unchecked, so the output must hold them.
   */
  method U16ToBytes(target: u16, output: array<byte>)
    requires output.Length >= 2
    modifies output
    ensures output[..] == Appended(LE16(target), old(output[..]), 0)
  {
    output[0] := target % 0x100;
    output[1] := target / 0x100;
  }

  /** u32_to_u8: writes exactly the four bytes output[0..4). */
  method U32ToBytes(target: u32, output: array<byte>)
    requires output.Length >= 4
    modifies output
    ensures output[..] == Appended(LE32(target), old(output[..]), 0)
  {
    output[0] := target % 0x100;
    output[1] := (target / 0x100) % 0x100;
    output[2] := (target / 0x1_0000) % 0x100;
    output[3] := target / 0x100_0000;
  }

  /** f32_to_u8: writes the four bytes of the sample's bit pattern. */
  method F32ToBytes(target: F32, output: array<byte>)
    requires output.Length >= 4
    modifies output
    ensures output[..] == Appended(LE32(target), old(output[..]), 0)
  {
    U32ToBytes(target, output);
  }

  /**
   * do_transmute!: converts the value into a scratch buffer of its size,
   * appends that at `offset`, and advances the offset by the size whether or
   * not the bytes fitted.
   */
  method DoTransmute(s: Scalar, toBuf: array<byte>, offset: nat) returns (next: nat)
    modifies toBuf
    ensures next == offset + |Encode(s)|
    ensures toBuf[..] == Appended(Encode(s), old(toBuf[..]), offset)
    ensures offset == 0 && toBuf.Length == |Encode(s)| ==> toBuf[..] == Encode(s)
  {
    var size := if s.U16? then 2 else 4;
    var transmuteBuf := new byte[size](_ => 0);
    ghost var blank := transmuteBuf[..];
    match s {
      case U16(h) => U16ToBytes(h, transmuteBuf);
      case U32(w) => U32ToBytes(w, transmuteBuf);
      case F32Bits(f) => F32ToBytes(f, transmuteBuf);
    }
    AppendedWhole(Encode(s), blank);
    ghost var before := toBuf[..];
    var n := AppendBytes(transmuteBuf[..], toBuf, offset);
    next := offset + n;
    if offset == 0 && toBuf.Length == |Encode(s)| {
      AppendedWhole(Encode(s), before);
    }
  }

  /** append_bytes at offset 0 of a zeroed buffer: the bytes, then the zeros after them. */
  method AppendToZeroed(bytes: seq<byte>, buf: array<byte>) returns (n: nat)
    requires |bytes| <= buf.Length && buf[..] == Zeros(buf.Length)
    modifies buf
    ensures n == |bytes|
    ensures buf[..] == bytes + Zeros(buf.Length - |bytes|)
  {
    AppendedAfterPrefix([], bytes, buf.Length);
    assert Zeros(buf.Length) == [] + Zeros(buf.Length);
    n := AppendBytes(bytes, buf, 0);
  }

  /**
   * do_transmute! into a buffer whose first |p| bytes are written and whose
   * rest is still zero, at the end of the written part: the written part grows
   * by the value's image.
   */
  method TransmuteAfterPrefix(s: Scalar, toBuf: array<byte>, ghost p: seq<byte>, offset: nat) returns (next: nat)
    requires offset == |p| && |p| + |Encode(s)| <= toBuf.Length
    requires toBuf[..] == p + Zeros(toBuf.Length - |p|)
    modifies toBuf
    ensures next == offset + |Encode(s)|
    ensures toBuf[..] == p + Encode(s) + Zeros(toBuf.Length - next)
  {
    AppendedAfterPrefix(p, Encode(s), toBuf.Length - |p|);
    next := DoTransmute(s, toBuf, offset);
  }

  lemma ModPlusSize(x: nat, m: nat)
    requires m > 0
    ensures (x + m) % m == x % m
  {
    var q := x / m;
    var r := x % m;
    assert x == q * m + r;
    assert x + m == (q + 1) * m + r;
    ModUnique(x + m, m, q + 1, r);
  }

  lemma ModUnique(a: nat, m: nat, q: nat, r: nat)
    requires m > 0 && a == q * m + r && r < m
    ensures a % m == r
  {
    var d: int := q - a / m;
    assert d * m == a % m - r;
    if d >= 1 {
      MulAtLeast(d, m);
    } else if d <= -1 {
      MulAtLeast(-d, m);
    }
  }

  /** Division and remainder are determined by any decomposition a == q * m + r with r < m. */
  lemma DivModUnique(a: nat, m: nat, q: nat, r: nat)
    requires m > 0 && a == q * m + r && r < m
    ensures a / m == q && a % m == r
  {
    ModUnique(a, m, q, r);
    var d: int := q - a / m;
    assert d * m == 0;
    if d >= 1 {
      MulAtLeast(d, m);
    } else if d <= -1 {
      MulAtLeast(-d, m);
    }
  }

  lemma MulAtLeast(d: int, m: int)
    requires d >= 1 && m > 0
    ensures d * m >= m
  {
  }

  /** (x % m + 1) % m == (x + 1) % m: a counter wrapped at m advances like its remainder. */
  lemma ModSucc(x: nat, m: nat)
    requires m > 0
    ensures (x % m + 1) % m == (x + 1) % m
  {
    var q := x / m;
    var r := x % m;
    assert x == q * m + r;
    if r + 1 < m {
      ModUnique(x + 1, m, q, r + 1);
      ModUnique(r + 1, m, 0, r + 1);
    } else {
      assert (q + 1) * m == q * m + m;
      ModUnique(x + 1, m, q + 1, 0);
      ModUnique(r + 1, m, 1, 0);
    }
  }
}
