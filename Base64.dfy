/**
 * Base64 with the standard alphabet and '=' padding, as defined in
 * section 4 of RFC 4648. The session engine only carries one Base64 text,
 * the start_stream codec header; this module gives its meaning.
 */
module Base64 {
  import opened Wrappers
  import opened Bytes

  /** The character for a 6-bit index: A-Z, a-z, 0-9, '+', '/'. */
  function CharOf(i: int): (c: char)
    requires 0 <= i < 64
  {
    if i < 26 then ('A' as int + i) as char
    else if i < 52 then ('a' as int + (i - 26)) as char
    else if i < 62 then ('0' as int + (i - 52)) as char
    else if i == 62 then '+'
    else '/'
  }

  predicate IsAlphabetChar(c: char) {
    ('A' <= c <= 'Z') || ('a' <= c <= 'z') || ('0' <= c <= '9') || c == '+' || c == '/'
  }

  /** The 6-bit index of an alphabet character. */
  function IndexOf(c: char): (i: int)
    requires IsAlphabetChar(c)
    ensures 0 <= i < 64
  {
    if 'A' <= c <= 'Z' then c as int - 'A' as int
    else if 'a' <= c <= 'z' then c as int - 'a' as int + 26
    else if '0' <= c <= '9' then c as int - '0' as int + 52
    else if c == '+' then 62
    else 63
  }

  /** Every index has a character that maps back to it. */
  lemma IndexOfCharOf(i: int)
    requires 0 <= i < 64
    ensures IsAlphabetChar(CharOf(i)) && IndexOf(CharOf(i)) == i
  {
  }

  /** Three bytes as four 6-bit indices, most significant bits first. */
  function EncodeQuantum(a: byte, b: byte, c: byte): (s: string)
    ensures |s| == 4
  {
    [CharOf(a / 4), CharOf((a % 4) * 16 + b / 16), CharOf((b % 16) * 4 + c / 64), CharOf(c % 64)]
  }

  /** Four 6-bit indices as three bytes. */
  function DecodeQuantum(i0: int, i1: int, i2: int, i3: int): (bs: seq<byte>)
    requires 0 <= i0 < 64 && 0 <= i1 < 64 && 0 <= i2 < 64 && 0 <= i3 < 64
    ensures |bs| == 3
  {
    [i0 * 4 + i1 / 16, (i1 % 16) * 16 + i2 / 4, (i2 % 4) * 64 + i3]
  }

  /** Encoding, three bytes at a time; one or two leftover bytes are padded with '='. */
  function Encode(bs: seq<byte>): (s: string)
    ensures |s| == 4 * ((|bs| + 2) / 3)
    decreases |bs|
  {
    if |bs| == 0 then ""
    else if |bs| == 1 then EncodeQuantum(bs[0], 0, 0)[..2] + "=="
    else if |bs| == 2 then EncodeQuantum(bs[0], bs[1], 0)[..3] + "="
    else
      assert (|bs| + 2) / 3 == (|bs| - 1) / 3 + 1;
      EncodeQuantum(bs[0], bs[1], bs[2]) + Encode(bs[3..])
  }

  /** Decoding four characters at a time; only the last group may end in "=" or "==". */
  function Decode(s: string): (r: Option<seq<byte>>)
    decreases |s|
  {
    if |s| == 0 then Some([])
    else if |s| < 4 then None
    else if !(IsAlphabetChar(s[0]) && IsAlphabetChar(s[1])) then None
    else if |s| == 4 && s[2] == '=' && s[3] == '=' then
      Some(DecodeQuantum(IndexOf(s[0]), IndexOf(s[1]), 0, 0)[..1])
    else if !IsAlphabetChar(s[2]) then None
    else if |s| == 4 && s[3] == '=' then
      Some(DecodeQuantum(IndexOf(s[0]), IndexOf(s[1]), IndexOf(s[2]), 0)[..2])
    else if !IsAlphabetChar(s[3]) then None
    else
      match Decode(s[4..])
      case None => None
      case Some(rest) => Some(DecodeQuantum(IndexOf(s[0]), IndexOf(s[1]), IndexOf(s[2]), IndexOf(s[3])) + rest)
  }

  /** Regrouping three bytes as four 6-bit indices and back gives the bytes again. */
  lemma QuantumArithmetic(a: byte, b: byte, c: byte)
    ensures var i1, i2 := (a % 4) * 16 + b / 16, (b % 16) * 4 + c / 64;
      && (a / 4) * 4 + i1 / 16 == a
      && (i1 % 16) * 16 + i2 / 4 == b
      && (i2 % 4) * 64 + c % 64 == c
  {
    var i1, i2 := (a % 4) * 16 + b / 16, (b % 16) * 4 + c / 64;
    assert i1 / 16 == a % 4 && i1 % 16 == b / 16;
    assert i2 / 4 == b % 16 && i2 % 4 == c / 64;
  }

  /** One quantum decodes to the three bytes it encodes. */
  lemma DecodeEncodeQuantum(a: byte, b: byte, c: byte)
    ensures var s := EncodeQuantum(a, b, c);
      && (forall k :: 0 <= k < 4 ==> IsAlphabetChar(s[k]))
      && DecodeQuantum(IndexOf(s[0]), IndexOf(s[1]), IndexOf(s[2]), IndexOf(s[3])) == [a, b, c]
  {
    var i0, i1, i2, i3 := a / 4, (a % 4) * 16 + b / 16, (b % 16) * 4 + c / 64, c % 64;
    IndexOfCharOf(i0);
    IndexOfCharOf(i1);
    IndexOfCharOf(i2);
    IndexOfCharOf(i3);
    QuantumArithmetic(a, b, c);
  }

  /** One leftover byte: two characters and "==" decode back to it. */
  lemma DecodeEncodeOne(a: byte)
    ensures Decode(Encode([a])) == Some([a])
  {
    var q := EncodeQuantum(a, 0, 0);
    DecodeEncodeQuantum(a, 0, 0);
    IndexOfCharOf(0);
    var s := Encode([a]);
    assert s == [q[0], q[1], '=', '='];
    assert IsAlphabetChar(s[0]) && IsAlphabetChar(s[1]);
    assert Decode(s) == Some(DecodeQuantum(IndexOf(q[0]), IndexOf(q[1]), 0, 0)[..1]);
    assert q[2] == CharOf(0) && q[3] == CharOf(0);
    assert DecodeQuantum(IndexOf(q[0]), IndexOf(q[1]), 0, 0) == [a, 0, 0];
    assert [a, 0, 0][..1] == [a];
  }

  /** Two leftover bytes: three characters and "=" decode back to them. */
  lemma DecodeEncodeTwo(a: byte, b: byte)
    ensures Decode(Encode([a, b])) == Some([a, b])
  {
    var q := EncodeQuantum(a, b, 0);
    DecodeEncodeQuantum(a, b, 0);
    IndexOfCharOf(0);
    var s := Encode([a, b]);
    assert s == [q[0], q[1], q[2], '='];
    assert IsAlphabetChar(s[0]) && IsAlphabetChar(s[1]) && IsAlphabetChar(s[2]) && s[2] != '=';
    assert Decode(s) == Some(DecodeQuantum(IndexOf(q[0]), IndexOf(q[1]), IndexOf(q[2]), 0)[..2]);
    assert q[3] == CharOf(0);
    assert DecodeQuantum(IndexOf(q[0]), IndexOf(q[1]), IndexOf(q[2]), 0) == [a, b, 0];
    assert [a, b, 0][..2] == [a, b];
  }

  /** A group of four alphabet characters decodes to its three bytes, followed by whatever the rest decodes to. */
  lemma DecodeFullGroup(q: string, rest: string, bytes: seq<byte>)
    requires |q| == 4 && forall k :: 0 <= k < 4 ==> IsAlphabetChar(q[k])
    requires Decode(rest) == Some(bytes)
    ensures Decode(q + rest) == Some(DecodeQuantum(IndexOf(q[0]), IndexOf(q[1]), IndexOf(q[2]), IndexOf(q[3])) + bytes)
  {
    var s := q + rest;
    assert s[..4] == q && s[4..] == rest;
    assert IsAlphabetChar(s[0]) && IsAlphabetChar(s[1]) && IsAlphabetChar(s[2]) && IsAlphabetChar(s[3]);
    assert s[2] != '=' && s[3] != '=';
  }

  /** The first three bytes' quantum followed by text decoding to the remaining bytes decodes to all of them. */
  lemma DecodeQuantumThenRest(bs: seq<byte>, rest: string)
    requires |bs| >= 3 && Decode(rest) == Some(bs[3..])
    ensures Decode(EncodeQuantum(bs[0], bs[1], bs[2]) + rest) == Some(bs)
  {
    DecodeEncodeQuantum(bs[0], bs[1], bs[2]);
    DecodeFullGroup(EncodeQuantum(bs[0], bs[1], bs[2]), rest, bs[3..]);
    assert bs == [bs[0], bs[1], bs[2]] + bs[3..];
  }

  /** Decoding the encoding of any bytes gives those bytes back. */
  lemma {:induction false} DecodeEncode(bs: seq<byte>)
    ensures Decode(Encode(bs)) == Some(bs)
    decreases |bs|
  {
    if |bs| == 0 {
    } else if |bs| == 1 {
      assert bs == [bs[0]];
      DecodeEncodeOne(bs[0]);
    } else if |bs| == 2 {
      assert bs == [bs[0], bs[1]];
      DecodeEncodeTwo(bs[0], bs[1]);
    } else {
      var rest := Encode(bs[3..]);
      DecodeEncode(bs[3..]);
      DecodeQuantumThenRest(bs, rest);
      assert Encode(bs) == EncodeQuantum(bs[0], bs[1], bs[2]) + rest;
    }
  }
}
