/**
 * `String.toByteArray()` (UTF-8) and `Base64.getEncoder().encodeToString`: the
 * basic alphabet with `=` padding of section 4 of RFC 4648, with the decoder
 * that undoes it.
 */
module Base64 {
  import opened Wrappers

  /** An octet, as the JVM's `Byte` read unsigned. */
  type Byte = b: int | 0 <= b < 256

  /** A 6-bit value, the unit one Base64 character carries. */
  type Sextet = v: int | 0 <= v < 64

  /** The character of the basic alphabet (Table 1 of RFC 4648) for a sextet. */
  function SextetChar(v: Sextet): (c: char)
    ensures c != '='
  {
    if v < 26 then ('A' as int + v) as char
    else if v < 52 then ('a' as int + (v - 26)) as char
    else if v < 62 then ('0' as int + (v - 52)) as char
    else if v == 62 then '+'
    else '/'
  }

  /** The sextet a character of the basic alphabet stands for; `None` for any other character. */
  function CharSextet(c: char): (r: Option<Sextet>)
    ensures r.Some? ==> SextetChar(r.value) == c
  {
    if 'A' <= c <= 'Z' then Some(c as int - 'A' as int)
    else if 'a' <= c <= 'z' then Some(c as int - 'a' as int + 26)
    else if '0' <= c <= '9' then Some(c as int - '0' as int + 52)
    else if c == '+' then Some(62)
    else if c == '/' then Some(63)
    else None
  }

  lemma CharSextetInverse(v: Sextet)
    ensures CharSextet(SextetChar(v)) == Some(v)
  {
  }

  /** The four sextets of three bytes: 6 bits of `b0`, 2 + 4, 4 + 2, then 6 bits of `b2`. */
  function Split(b0: Byte, b1: Byte, b2: Byte): (v: (Sextet, Sextet, Sextet, Sextet)) {
    (b0 / 4, (b0 % 4) * 16 + b1 / 16, (b1 % 16) * 4 + b2 / 64, b2 % 64)
  }

  /** Three bytes as four characters. */
  function EncodeGroup(b0: Byte, b1: Byte, b2: Byte): string {
    var v := Split(b0, b1, b2);
    [SextetChar(v.0), SextetChar(v.1), SextetChar(v.2), SextetChar(v.3)]
  }

  /** The encoding of `bytes`: whole groups first, then a padded final group of one or two bytes. */
  function Encode(bytes: seq<Byte>): (s: string)
    ensures |s| % 4 == 0
    ensures |bytes| == 0 <==> |s| == 0
  {
    if |bytes| == 0 then ""
    else if |bytes| == 1 then
      var v := Split(bytes[0], 0, 0);
      [SextetChar(v.0), SextetChar(v.1), '=', '=']
    else if |bytes| == 2 then
      var v := Split(bytes[0], bytes[1], 0);
      [SextetChar(v.0), SextetChar(v.1), SextetChar(v.2), '=']
    else
      EncodeGroup(bytes[0], bytes[1], bytes[2]) + Encode(bytes[3..])
  }

  /** Four sextets back to the three bytes they carry. */
  function Join(v0: Sextet, v1: Sextet, v2: Sextet, v3: Sextet): (b: (Byte, Byte, Byte)) {
    (v0 * 4 + v1 / 16, (v1 % 16) * 16 + v2 / 4, (v2 % 4) * 64 + v3)
  }

  /** Joining the sextets of a split gives the three bytes back. */
  lemma JoinSplit(b0: Byte, b1: Byte, b2: Byte)
    ensures var v := Split(b0, b1, b2); Join(v.0, v.1, v.2, v.3) == (b0, b1, b2)
  {
    var v := Split(b0, b1, b2);
    assert v.1 / 16 == b0 % 4;
    assert v.2 / 4 == b1 % 16;
    assert v.1 % 16 == b1 / 16;
    assert v.2 % 4 == b2 / 64;
  }

  /** Decodes a padded Base64 string; `None` when a character lies outside the alphabet. */
  function Decode(s: string): (r: Option<seq<Byte>>)
    decreases |s|
  {
    if |s| == 0 then Some([])
    else if |s| < 4 then None
    else
      var c0, c1, c2, c3 := CharSextet(s[0]), CharSextet(s[1]), CharSextet(s[2]), CharSextet(s[3]);
      if c0.None? || c1.None? then None
      else if |s| == 4 && s[2] == '=' && s[3] == '=' then
        Some([Join(c0.value, c1.value, 0, 0).0])
      else if c2.None? then None
      else if |s| == 4 && s[3] == '=' then
        var b := Join(c0.value, c1.value, c2.value, 0);
        Some([b.0, b.1])
      else if c3.None? then None
      else
        match Decode(s[4..])
        case None => None
        case Some(rest) =>
          var b := Join(c0.value, c1.value, c2.value, c3.value);
          Some([b.0, b.1, b.2] + rest)
  }

  /** A final group of one byte decodes back to that byte. */
  lemma DecodeEncodeOne(b0: Byte)
    ensures Decode(Encode([b0])) == Some([b0])
  {
    var v := Split(b0, 0, 0);
    CharSextetInverse(v.0);
    CharSextetInverse(v.1);
    JoinSplit(b0, 0, 0);
    var s := Encode([b0]);
    assert s == [SextetChar(v.0), SextetChar(v.1), '=', '='];
  }

  /** A final group of two bytes decodes back to those bytes. */
  lemma DecodeEncodeTwo(b0: Byte, b1: Byte)
    ensures Decode(Encode([b0, b1])) == Some([b0, b1])
  {
    var v := Split(b0, b1, 0);
    CharSextetInverse(v.0);
    CharSextetInverse(v.1);
    CharSextetInverse(v.2);
    JoinSplit(b0, b1, 0);
    var s := Encode([b0, b1]);
    assert s == [SextetChar(v.0), SextetChar(v.1), SextetChar(v.2), '='];
    assert v.3 == 0 && s[2] != '=';
  }

  /** A whole group in front of a decodable encoding decodes to its three bytes in front. */
  lemma DecodeGroupStep(b0: Byte, b1: Byte, b2: Byte, tail: string, rest: seq<Byte>)
    requires |tail| % 4 == 0
    requires Decode(tail) == Some(rest)
    ensures Decode(EncodeGroup(b0, b1, b2) + tail) == Some([b0, b1, b2] + rest)
  {
    var v := Split(b0, b1, b2);
    var s := EncodeGroup(b0, b1, b2) + tail;
    CharSextetInverse(v.0);
    CharSextetInverse(v.1);
    CharSextetInverse(v.2);
    CharSextetInverse(v.3);
    JoinSplit(b0, b1, b2);
    assert s[..4] == EncodeGroup(b0, b1, b2) && s[4..] == tail;
    assert s[2] != '=' && s[3] != '=';
  }

  /** The one- and two-byte tails, stated on the sequence itself. */
  lemma DecodeEncodeShort(bytes: seq<Byte>)
    requires 1 <= |bytes| <= 2
    ensures Decode(Encode(bytes)) == Some(bytes)
  {
    if |bytes| == 1 {
      DecodeEncodeOne(bytes[0]);
      assert bytes == [bytes[0]];
    } else {
      DecodeEncodeTwo(bytes[0], bytes[1]);
      assert bytes == [bytes[0], bytes[1]];
    }
  }

  /** Three or more bytes encode as one group followed by the encoding of the rest. */
  lemma EncodeStep(bytes: seq<Byte>)
    requires |bytes| >= 3
    ensures Encode(bytes) == EncodeGroup(bytes[0], bytes[1], bytes[2]) + Encode(bytes[3..])
  {
  }

  lemma SplitThree(bytes: seq<Byte>)
    requires |bytes| >= 3
    ensures bytes == [bytes[0], bytes[1], bytes[2]] + bytes[3..]
  {
  }

  /** Decoding an encoding gives the original bytes back. */
  lemma {:induction false} DecodeEncode(bytes: seq<Byte>)
    ensures Decode(Encode(bytes)) == Some(bytes)
    decreases |bytes|
  {
    if |bytes| == 0 {
    } else if |bytes| <= 2 {
      DecodeEncodeShort(bytes);
    } else {
      var rest := bytes[3..];
      DecodeEncode(rest);
      EncodeStep(bytes);
      SplitThree(bytes);
      DecodeGroupStep(bytes[0], bytes[1], bytes[2], Encode(rest), rest);
    }
  }

  // ---------------------------------------------------------------------------
  // UTF-8 (`String.toByteArray()` with the default charset)
  // ---------------------------------------------------------------------------

  /** A continuation byte `10xxxxxx` carrying the low six bits of `n`. */
  function Cont(n: nat): Byte {
    0x80 + n % 64
  }

  /** The UTF-8 encoding of one code point (section 3 of RFC 3629). */
  function Utf8Char(c: char): (r: seq<Byte>)
    ensures 1 <= |r| <= 4
    ensures (c as int < 0x80) <==> |r| == 1
    ensures |r| == 1 ==> r[0] == c as int
  {
    var n := c as int;
    if n < 0x80 then [n]
    else if n < 0x800 then [0xC0 + n / 64, Cont(n)]
    else if n < 0x10000 then [0xE0 + n / 4096, Cont(n / 64), Cont(n)]
    else [0xF0 + n / 262144, Cont(n / 4096), Cont(n / 64), Cont(n)]
  }

  /** `s.toByteArray()`: the UTF-8 bytes of each character, in order. */
  function Utf8(s: string): (r: seq<Byte>)
    ensures |s| <= |r| <= 4 * |s|
  {
    if s == [] then [] else Utf8Char(s[0]) + Utf8(s[1..])
  }

  /** Encoding a concatenation encodes each part in turn. */
  lemma {:induction false} Utf8Append(a: string, b: string)
    ensures Utf8(a + b) == Utf8(a) + Utf8(b)
  {
    if a != [] {
      assert (a + b)[1..] == a[1..] + b;
      Utf8Append(a[1..], b);
    } else {
      assert a + b == b;
    }
  }
}
