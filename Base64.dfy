/** The base 64 encoding of section 4 of RFC 4648: standard alphabet, `=`
    padding, no line breaks (what Apache Commons Codec's
    `Base64.encodeBase64(byte[])` produces), and its decoding. */
module Base64 {
  import opened Wrappers

  type byte = x: int | 0 <= x < 256

  /** A 6-bit group, the value one encoding character stands for. */
  type sextet = x: int | 0 <= x < 64

  const Pad: char := '='

  /** Table 1 of RFC 4648: A-Z, a-z, 0-9, '+', '/'. */
  function Char(v: sextet): (c: char)
    ensures Value(c) == Some(v)
  {
    if v < 26 then ('A' as int + v) as char
    else if v < 52 then ('a' as int + (v - 26)) as char
    else if v < 62 then ('0' as int + (v - 52)) as char
    else if v == 62 then '+'
    else '/'
  }

  /** The value of an alphabet character; None for any other character. */
  function Value(c: char): Option<sextet> {
    if 'A' <= c <= 'Z' then Some(c as int - 'A' as int)
    else if 'a' <= c <= 'z' then Some(c as int - 'a' as int + 26)
    else if '0' <= c <= '9' then Some(c as int - '0' as int + 52)
    else if c == '+' then Some(62)
    else if c == '/' then Some(63)
    else None
  }

  /** A character that can appear in an encoding. */
  predicate IsEncodingChar(c: char) {
    Value(c).Some? || c == Pad
  }

  /** The four characters for three bytes: 24 bits read as four sextets. */
  function Triple(x: byte, y: byte, z: byte): string {
    [Char(x / 4), Char(x % 4 * 16 + y / 16), Char(y % 16 * 4 + z / 64), Char(z % 64)]
  }

  /** The final group for two bytes: 16 bits and two zero bits, then one `=`. */
  function Pair(x: byte, y: byte): string {
    [Char(x / 4), Char(x % 4 * 16 + y / 16), Char(y % 16 * 4), Pad]
  }

  /** The final group for one byte: 8 bits and four zero bits, then `==`. */
  function Single(x: byte): string {
    [Char(x / 4), Char(x % 4 * 16), Pad, Pad]
  }

  /** Every 3 bytes become 4 characters; a final group of 1 or 2 bytes is
      padded. */
  function Encode(b: seq<byte>): (r: string)
    ensures |r| == 4 * ((|b| + 2) / 3)
    decreases |b|
  {
    if |b| == 0 then []
    else if |b| == 1 then Single(b[0])
    else if |b| == 2 then Pair(b[0], b[1])
    else Triple(b[0], b[1], b[2]) + Encode(b[3..])
  }

  /** Decodes one group of four characters; padding is allowed only in the
      third and fourth positions. */
  function DecodeGroup(c0: char, c1: char, c2: char, c3: char): Option<seq<byte>> {
    if Value(c0).None? || Value(c1).None? then None
    else
      var v0, v1 := Value(c0).value, Value(c1).value;
      if c2 == Pad && c3 == Pad then Some([v0 * 4 + v1 / 16])
      else if Value(c2).None? then None
      else
        var v2 := Value(c2).value;
        if c3 == Pad then Some([v0 * 4 + v1 / 16, v1 % 16 * 16 + v2 / 4])
        else if Value(c3).None? then None
        else
          var v3 := Value(c3).value;
          Some([v0 * 4 + v1 / 16, v1 % 16 * 16 + v2 / 4, v2 % 4 * 64 + v3])
  }

  /** Decodes a whole encoding: groups of four, padding only in the last one. */
  function Decode(s: string): Option<seq<byte>>
    decreases |s|
  {
    if |s| == 0 then Some([])
    else if |s| < 4 then None
    else
      match DecodeGroup(s[0], s[1], s[2], s[3])
      case None => None
      case Some(g) =>
        if |s| == 4 then Some(g)
        else if |g| != 3 then None
        else
          match Decode(s[4..])
          case None => None
          case Some(rest) => Some(g + rest)
  }

  /** A sextet split back into the bits above and below a boundary. */
  lemma SplitSextet(hi: int, lo: int, k: int)
    requires k == 4 || k == 16
    requires 0 <= lo < k
    ensures (hi * k + lo) / k == hi && (hi * k + lo) % k == lo
  {
  }

  lemma SingleGroup(x: byte)
    ensures var t := Single(x); DecodeGroup(t[0], t[1], t[2], t[3]) == Some([x])
  {
    SplitSextet(x % 4, 0, 16);
  }

  lemma DecodeSingle(x: byte)
    ensures Decode(Single(x)) == Some([x])
  {
    SingleGroup(x);
  }

  lemma PairGroup(x: byte, y: byte)
    ensures var t := Pair(x, y); DecodeGroup(t[0], t[1], t[2], t[3]) == Some([x, y])
  {
    var t := Pair(x, y);
    var v0, v1, v2 := x / 4, x % 4 * 16 + y / 16, y % 16 * 4;
    assert Value(t[0]) == Some(v0) && Value(t[1]) == Some(v1);
    assert Value(t[2]) == Some(v2) && t[3] == Pad;
    SplitSextet(x % 4, y / 16, 16);
    SplitSextet(y % 16, 0, 4);
    assert v0 * 4 + v1 / 16 == x;
    assert v1 % 16 * 16 + v2 / 4 == y;
  }

  lemma DecodePair(x: byte, y: byte)
    ensures Decode(Pair(x, y)) == Some([x, y])
  {
    PairGroup(x, y);
  }

  lemma DecodeTriple(x: byte, y: byte, z: byte)
    ensures var t := Triple(x, y, z); DecodeGroup(t[0], t[1], t[2], t[3]) == Some([x, y, z])
  {
    var t := Triple(x, y, z);
    var v0, v1, v2, v3 := x / 4, x % 4 * 16 + y / 16, y % 16 * 4 + z / 64, z % 64;
    assert Value(t[0]) == Some(v0) && Value(t[1]) == Some(v1);
    assert Value(t[2]) == Some(v2) && Value(t[3]) == Some(v3);
    SplitSextet(x % 4, y / 16, 16);
    SplitSextet(y % 16, z / 64, 4);
    assert v0 * 4 + v1 / 16 == x;
    assert v1 % 16 * 16 + v2 / 4 == y;
    assert v2 % 4 * 64 + v3 == z;
  }

  /** A full group followed by more characters decodes group by group. */
  lemma DecodeAfterTriple(x: byte, y: byte, z: byte, rest: string)
    requires Decode(rest).Some?
    ensures Decode(Triple(x, y, z) + rest) == Some([x, y, z] + Decode(rest).value)
  {
    var s := Triple(x, y, z) + rest;
    DecodeTriple(x, y, z);
    assert s[0] == Triple(x, y, z)[0] && s[1] == Triple(x, y, z)[1];
    assert s[2] == Triple(x, y, z)[2] && s[3] == Triple(x, y, z)[3];
    assert s[4..] == rest;
    assert DecodeGroup(s[0], s[1], s[2], s[3]) == Some([x, y, z]);
    if rest == [] {
      assert [x, y, z] + Decode(rest).value == [x, y, z];
    }
  }

  lemma DecodeEncodeShort(b: seq<byte>)
    requires 1 <= |b| <= 2
    ensures Decode(Encode(b)) == Some(b)
  {
    if |b| == 1 {
      assert Encode(b) == Single(b[0]);
      DecodeSingle(b[0]);
      assert b == [b[0]];
    } else {
      assert Encode(b) == Pair(b[0], b[1]);
      DecodePair(b[0], b[1]);
      assert b == [b[0], b[1]];
    }
  }

  lemma SplitThree(b: seq<byte>)
    requires |b| >= 3
    ensures b == [b[0], b[1], b[2]] + b[3..]
  {
  }

  lemma DecodeEncodeStep(b: seq<byte>)
    requires |b| >= 3
    requires Decode(Encode(b[3..])) == Some(b[3..])
    ensures Decode(Encode(b)) == Some(b)
  {
    var rest := Encode(b[3..]);
    assert Encode(b) == Triple(b[0], b[1], b[2]) + rest;
    DecodeAfterTriple(b[0], b[1], b[2], rest);
    SplitThree(b);
  }

  /** Decoding an encoding gives back the bytes that were encoded. */
  lemma {:induction false} DecodeEncode(b: seq<byte>)
    ensures Decode(Encode(b)) == Some(b)
    decreases |b|
  {
    if 1 <= |b| <= 2 {
      DecodeEncodeShort(b);
    } else if |b| >= 3 {
      DecodeEncode(b[3..]);
      DecodeEncodeStep(b);
    }
  }

  /** Only alphabet characters and `=`, and `=` only in the last two places. */
  predicate WellFormed(r: string) {
    (forall i :: 0 <= i < |r| ==> IsEncodingChar(r[i])) &&
    (forall i :: 0 <= i < |r| && r[i] == Pad ==> |r| - 2 <= i)
  }

  /** A full group followed by a well-formed encoding is well formed. */
  lemma WellFormedAfterTriple(x: byte, y: byte, z: byte, rest: string)
    requires WellFormed(rest)
    ensures WellFormed(Triple(x, y, z) + rest)
  {
    var t := Triple(x, y, z);
    assert forall k :: 0 <= k < 4 ==> Value(t[k]).Some?;
    forall i | 0 <= i < |t + rest|
      ensures IsEncodingChar((t + rest)[i])
      ensures (t + rest)[i] == Pad ==> |t + rest| - 2 <= i
    {
      if i < 4 {
        assert (t + rest)[i] == t[i];
      } else {
        assert (t + rest)[i] == rest[i - 4];
      }
    }
  }

  /** Every encoding is well formed. */
  lemma {:induction false} EncodeWellFormed(b: seq<byte>)
    ensures WellFormed(Encode(b))
    decreases |b|
  {
    if |b| >= 3 {
      EncodeWellFormed(b[3..]);
      WellFormedAfterTriple(b[0], b[1], b[2], Encode(b[3..]));
    } else if |b| == 2 {
      var p := Pair(b[0], b[1]);
      assert Value(p[0]).Some? && Value(p[1]).Some? && Value(p[2]).Some?;
    } else if |b| == 1 {
      var p := Single(b[0]);
      assert Value(p[0]).Some? && Value(p[1]).Some?;
    }
  }

  /** The bits of a padded final group that no byte fills are zero
      (section 3.5 of RFC 4648): with `==` the last sextet before the padding
      has its low four bits clear, with a single `=` its low two bits. */
  predicate ZeroPadBits(r: string) {
    (4 <= |r| && r[|r| - 1] == Pad && r[|r| - 2] == Pad ==>
      Value(r[|r| - 3]).Some? && Value(r[|r| - 3]).value % 16 == 0) &&
    (4 <= |r| && r[|r| - 1] == Pad && r[|r| - 2] != Pad ==>
      Value(r[|r| - 2]).Some? && Value(r[|r| - 2]).value % 4 == 0)
  }

  /** A full group followed by an encoding keeps that encoding's padding. */
  lemma ZeroPadBitsAfterTriple(x: byte, y: byte, z: byte, rest: string)
    requires ZeroPadBits(rest) && |rest| % 4 == 0
    ensures ZeroPadBits(Triple(x, y, z) + rest)
  {
    var t := Triple(x, y, z);
    var r := t + rest;
    if |rest| == 0 {
      assert r == t;
      assert Value(t[3]).Some? && Value(t[2]).Some?;
    } else {
      assert r[|r| - 1] == rest[|rest| - 1];
      assert r[|r| - 2] == rest[|rest| - 2];
      assert r[|r| - 3] == rest[|rest| - 3];
    }
  }

  /** Every encoding writes its unused bits as zero. */
  lemma {:induction false} EncodeZeroPadBits(b: seq<byte>)
    ensures ZeroPadBits(Encode(b))
    decreases |b|
  {
    if |b| >= 3 {
      EncodeZeroPadBits(b[3..]);
      ZeroPadBitsAfterTriple(b[0], b[1], b[2], Encode(b[3..]));
    } else if |b| == 2 {
      var p := Pair(b[0], b[1]);
      assert Value(p[2]) == Some(b[1] % 16 * 4);
    } else if |b| == 1 {
      var p := Single(b[0]);
      assert Value(p[1]) == Some(b[0] % 4 * 16);
    }
  }

  /** No encoding contains a quote, a backslash or a line break, so it can be
      written inside a single-quoted JavaScript string literal as it is. */
  lemma EncodeIsLiteralSafe(b: seq<byte>)
    ensures forall i :: 0 <= i < |Encode(b)| ==>
      Encode(b)[i] != '\'' && Encode(b)[i] != '\\' && Encode(b)[i] != '\n' && Encode(b)[i] != '\r'
  {
    EncodeWellFormed(b);
  }
}
