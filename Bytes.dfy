/**
 * Java's 32-bit int and the big-endian byte layout that java.nio.ByteBuffer
 * writes with putInt and reads with getInt. A byte is modelled by its bit
 * pattern 0..255.
 */
module Bytes {

  type byte = x: int | 0 <= x < 256

  const TWO_31: int := 0x8000_0000
  const TWO_32: int := 0x1_0000_0000
  const INT_MIN: int := -0x8000_0000
  const INT_MAX: int := 0x7FFF_FFFF

  /** A value of Java's `int`. */
  type Int32 = x: int | -0x8000_0000 <= x < 0x8000_0000

  /** Java's narrowing of an integer to `int`: keep the low 32 bits, two's complement. */
  function Wrap32(x: int): (r: Int32)
    ensures (x - r) % TWO_32 == 0
    ensures INT_MIN <= x <= INT_MAX ==> r == x
  {
    var u := x % TWO_32;
    assert x == (x / TWO_32) * TWO_32 + u;
    if u >= TWO_31 then u - TWO_32 else u
  }

  /** Java's `x + 1` (and `x++`, `getAndIncrement`) on an `int`. */
  function Inc32(x: Int32): (r: Int32)
    ensures x < INT_MAX ==> r == x + 1
    ensures x == INT_MAX ==> r == INT_MIN
    ensures r != x
  {
    Wrap32(x + 1)
  }

  /** The two's-complement bit pattern of an `int`, read as an unsigned number. */
  function Unsigned32(x: Int32): (u: int)
    ensures 0 <= u < TWO_32
    ensures x >= 0 ==> u == x
    ensures x < 0 ==> u == x + TWO_32
  {
    if x < 0 then x + TWO_32 else x
  }

  /** `ByteBuffer.putInt` in BIG_ENDIAN order: the four bytes, most significant first. */
  function BigEndian32(x: Int32): (bs: seq<byte>)
    ensures |bs| == 4
  {
    var u := Unsigned32(x);
    [u / 0x100_0000, (u / 0x1_0000) % 256, (u / 256) % 256, u % 256]
  }

  /** `ByteBuffer.getInt` in BIG_ENDIAN order on four bytes. */
  function ReadBigEndian32(bs: seq<byte>): Int32
    requires |bs| == 4
  {
    var u := Combine(bs[0], bs[1], bs[2], bs[3]);
    if u >= TWO_31 then u - TWO_32 else u
  }

  /** The unsigned number whose base-256 digits are a, b, c, d (most significant first). */
  function Combine(a: byte, b: byte, c: byte, d: byte): (u: int)
    ensures 0 <= u < TWO_32
  {
    (a as int) * 0x100_0000 + (b as int) * 0x1_0000 + (c as int) * 0x100 + (d as int)
  }

  /** Reading back what putInt wrote yields the same int. */
  lemma ReadBigEndian32OfBigEndian32(x: Int32)
    ensures ReadBigEndian32(BigEndian32(x)) == x
  {
    var u := Unsigned32(x);
    var bs := BigEndian32(x);
    SplitDigits(u);
    assert Combine(bs[0], bs[1], bs[2], bs[3]) == u;
  }

  /** putInt on what getInt read reproduces the four bytes exactly. */
  lemma BigEndian32OfReadBigEndian32(bs: seq<byte>)
    requires |bs| == 4
    ensures BigEndian32(ReadBigEndian32(bs)) == bs
  {
    var u := Combine(bs[0], bs[1], bs[2], bs[3]);
    assert Unsigned32(ReadBigEndian32(bs)) == u;
    DigitsOfCombine(bs[0], bs[1], bs[2], bs[3]);
  }

  /** The four base-256 digits of u recombine to u. */
  lemma SplitDigits(u: int)
    requires 0 <= u < TWO_32
    ensures u / 0x100_0000 < 256
    ensures Combine(u / 0x100_0000, (u / 0x1_0000) % 256, (u / 256) % 256, u % 256) == u
  {
    var q1, r1 := u / 256, u % 256;
    var q2, r2 := u / 0x1_0000, u % 0x1_0000;
    var q3 := u / 0x100_0000;
    assert u == q1 * 256 + r1;
    assert u == q2 * 0x1_0000 + r2;
    assert q1 == q2 * 256 + r2 / 256 && q1 % 256 == r2 / 256;
    assert q2 == q3 * 256 + q2 % 256;
  }

  /** The digits of a combined number are the ones it was made of. */
  lemma DigitsOfCombine(a: byte, b: byte, c: byte, d: byte)
    ensures var u := Combine(a, b, c, d);
      u / 0x100_0000 == a && (u / 0x1_0000) % 256 == b && (u / 256) % 256 == c && u % 256 == d
  {
    var u := Combine(a, b, c, d);
    assert u / 256 == a * 0x1_0000 + b * 0x100 + c;
    assert u / 0x1_0000 == a * 0x100 + b;
    assert u / 0x100_0000 == a;
  }
}
