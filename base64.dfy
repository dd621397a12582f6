/** Standard Base64 with padding, as in section 4 of RFC 4648 (the encoding
    `base64::encode` produces), with its decoder as the partner that shows
    the encoding loses nothing. */
module Base64 {
  import opened Wrappers

  newtype byte = x: int | 0 <= x < 256

  /** The character for a 6-bit value: 'A'-'Z', 'a'-'z', '0'-'9', '+', '/'. */
  function CharOf(v: int): char
    requires 0 <= v < 64
  {
    if v < 26 then (65 + v) as char
    else if v < 52 then (97 + v - 26) as char
    else if v < 62 then (48 + v - 52) as char
    else if v == 62 then '+'
    else '/'
  }

  const PAD: char := '='

  /** The 6-bit value of an alphabet character; `None` for anything else,
      the pad character included. */
  function ValueOf(c: char): Option<int> {
    if 'A' <= c <= 'Z' then Some(c as int - 65)
    else if 'a' <= c <= 'z' then Some(c as int - 97 + 26)
    else if '0' <= c <= '9' then Some(c as int - 48 + 52)
    else if c == '+' then Some(62)
    else if c == '/' then Some(63)
    else None
  }

  lemma ValueOfCharOf(v: int)
    requires 0 <= v < 64
    ensures ValueOf(CharOf(v)) == Some(v) && CharOf(v) != PAD
  {
  }

  /** Three bytes as four characters: the 24 bits split into four 6-bit values. */
  function EncodeGroup(a: byte, b: byte, c: byte): string {
    [ CharOf(a as int / 4),
      CharOf((a as int % 4) * 16 + b as int / 16),
      CharOf((b as int % 16) * 4 + c as int / 64),
      CharOf(c as int % 64) ]
  }

  function Encode(data: seq<byte>): (s: string)
    ensures |s| == (|data| + 2) / 3 * 4
    decreases |data|
  {
    if |data| == 0 then ""
    else if |data| == 1 then EncodeGroup(data[0], 0, 0)[..2] + [PAD, PAD]
    else if |data| == 2 then EncodeGroup(data[0], data[1], 0)[..3] + [PAD]
    else EncodeGroup(data[0], data[1], data[2]) + Encode(data[3..])
  }

  /** Four 6-bit values back to three bytes. */
  function DecodeGroup(v0: int, v1: int, v2: int, v3: int): seq<byte>
    requires 0 <= v0 < 64 && 0 <= v1 < 64 && 0 <= v2 < 64 && 0 <= v3 < 64
  {
    [ (v0 * 4 + v1 / 16) as byte,
      ((v1 % 16) * 16 + v2 / 4) as byte,
      ((v2 % 4) * 64 + v3) as byte ]
  }

  /** One group of four characters; `last` tells whether it ends the text,
      the only place where padding may appear. */
  function DecodeQuad(c0: char, c1: char, c2: char, c3: char, last: bool): Option<seq<byte>> {
    var v0, v1, v2, v3 := ValueOf(c0), ValueOf(c1), ValueOf(c2), ValueOf(c3);
    if v0.None? || v1.None? then None
    else if last && c2 == PAD && c3 == PAD then Some(DecodeGroup(v0.value, v1.value, 0, 0)[..1])
    else if v2.None? then None
    else if last && c3 == PAD then Some(DecodeGroup(v0.value, v1.value, v2.value, 0)[..2])
    else if v3.None? then None
    else Some(DecodeGroup(v0.value, v1.value, v2.value, v3.value))
  }

  /** Decoding of padded standard Base64; `None` for text that is not a
      sequence of four-character groups over the alphabet, with padding only
      in the last group. */
  function Decode(s: string): Option<seq<byte>>
    decreases |s|
  {
    if |s| == 0 then Some([])
    else if |s| < 4 then None
    else
      match DecodeQuad(s[0], s[1], s[2], s[3], |s| == 4)
      case None => None
      case Some(q) =>
        match Decode(s[4..])
        case None => None
        case Some(rest) => Some(q + rest)
  }

  /** The bit arithmetic of one group: the four 6-bit values are in range
      and recombine into the three bytes. */
  lemma GroupArithmetic(a: int, b: int, c: int)
    requires 0 <= a < 256 && 0 <= b < 256 && 0 <= c < 256
    ensures var y, z := (a % 4) * 16 + b / 16, (b % 16) * 4 + c / 64;
      && 0 <= a / 4 < 64 && 0 <= y < 64 && 0 <= z < 64 && 0 <= c % 64 < 64
      && y / 16 == a % 4 && y % 16 == b / 16 && z / 4 == b % 16 && z % 4 == c / 64
  {
  }

  /** A full group decodes back to its three bytes. */
  lemma QuadRoundTrip(a: byte, b: byte, c: byte, last: bool)
    ensures var g := EncodeGroup(a, b, c);
      DecodeQuad(g[0], g[1], g[2], g[3], last) == Some([a, b, c])
  {
    var x, y, z, w := a as int / 4, (a as int % 4) * 16 + b as int / 16, (b as int % 16) * 4 + c as int / 64, c as int % 64;
    GroupArithmetic(a as int, b as int, c as int);
    ValueOfCharOf(x);
    ValueOfCharOf(y);
    ValueOfCharOf(z);
    ValueOfCharOf(w);
    var g := EncodeGroup(a, b, c);
    assert g == [CharOf(x), CharOf(y), CharOf(z), CharOf(w)];
    assert DecodeQuad(g[0], g[1], g[2], g[3], last) == Some(DecodeGroup(x, y, z, w));
    assert DecodeGroup(x, y, z, w) == [a, b, c];
  }

  /** A final group padded once decodes back to its two bytes. */
  lemma PaddedOnceRoundTrip(a: byte, b: byte)
    ensures var g := EncodeGroup(a, b, 0);
      DecodeQuad(g[0], g[1], g[2], PAD, true) == Some([a, b])
  {
    var x, y, z := a as int / 4, (a as int % 4) * 16 + b as int / 16, (b as int % 16) * 4;
    ValueOfCharOf(x);
    ValueOfCharOf(y);
    ValueOfCharOf(z);
    assert y / 16 == a as int % 4 && y % 16 == b as int / 16 && z / 4 == b as int % 16;
    var v := DecodeGroup(x, y, z, 0);
    assert v[0] == a && v[1] == b;
    assert v[..2] == [a, b];
  }

  /** A final group padded twice decodes back to its one byte. */
  lemma PaddedTwiceRoundTrip(a: byte)
    ensures var g := EncodeGroup(a, 0, 0);
      DecodeQuad(g[0], g[1], PAD, PAD, true) == Some([a])
  {
    var x, y := a as int / 4, (a as int % 4) * 16;
    ValueOfCharOf(x);
    ValueOfCharOf(y);
    assert y / 16 == a as int % 4;
    var v := DecodeGroup(x, y, 0, 0);
    assert v[0] == a;
    assert v[..1] == [a];
  }

  /** One byte encodes to a group padded twice, which decodes back to it. */
  lemma DecodeEncodeOne(a: byte)
    ensures Decode(Encode([a])) == Some([a])
  {
    var s := Encode([a]);
    PaddedTwiceRoundTrip(a);
    var g := EncodeGroup(a, 0, 0);
    assert s[0] == g[0] && s[1] == g[1] && s[2] == PAD && s[3] == PAD && s[4..] == [];
    assert [a] + [] == [a];
  }

  /** Two bytes encode to a group padded once, which decodes back to them. */
  lemma DecodeEncodeTwo(a: byte, b: byte)
    ensures Decode(Encode([a, b])) == Some([a, b])
  {
    var s := Encode([a, b]);
    PaddedOnceRoundTrip(a, b);
    var g := EncodeGroup(a, b, 0);
    assert s[0] == g[0] && s[1] == g[1] && s[2] == g[2] && s[3] == PAD && s[4..] == [];
    assert [a, b] + [] == [a, b];
  }

  /** A leading group of four characters that decodes is followed by the
      decoding of the rest. */
  lemma DecodeFirstGroup(q: string, rest: string, bytes: seq<byte>, restBytes: seq<byte>)
    requires |q| == 4 && DecodeQuad(q[0], q[1], q[2], q[3], rest == []) == Some(bytes)
    requires Decode(rest) == Some(restBytes)
    ensures Decode(q + rest) == Some(bytes + restBytes)
  {
    var s := q + rest;
    assert s[0] == q[0] && s[1] == q[1] && s[2] == q[2] && s[3] == q[3];
    assert s[4..] == rest;
  }

  /** A leading full group decodes back to its three bytes, ahead of the
      decoding of the rest. */
  lemma DecodeEncodeGroup(data: seq<byte>)
    requires |data| >= 3 && Decode(Encode(data[3..])) == Some(data[3..])
    ensures Decode(Encode(data)) == Some(data)
  {
    var g, rest := EncodeGroup(data[0], data[1], data[2]), Encode(data[3..]);
    var last := rest == [];
    QuadRoundTrip(data[0], data[1], data[2], last);
    DecodeFirstGroup(g, rest, [data[0], data[1], data[2]], data[3..]);
    assert Encode(data) == g + rest;
    SplitGroup(data);
  }

  lemma SplitGroup(data: seq<byte>)
    requires |data| >= 3
    ensures [data[0], data[1], data[2]] + data[3..] == data
  {
  }

  /** Decoding an encoding gives the bytes back. */
  lemma {:induction false} DecodeEncode(data: seq<byte>)
    ensures Decode(Encode(data)) == Some(data)
    decreases |data|
  {
    if |data| == 1 {
      assert data == [data[0]];
      DecodeEncodeOne(data[0]);
    } else if |data| == 2 {
      assert data == [data[0], data[1]];
      DecodeEncodeTwo(data[0], data[1]);
    } else if |data| >= 3 {
      DecodeEncode(data[3..]);
      DecodeEncodeGroup(data);
    }
  }
}
