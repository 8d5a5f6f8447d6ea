/**
  `encodeURIComponent` (section 19.2.6.5 of ECMA-262): every code point outside the
  unescaped set is written as the `%HH` escapes of its UTF-8 bytes with upper-case hex
  digits, which is the percent-encoding of section 2.1 of RFC 3986. `DecodeUriComponent`
  is its inverse, in the manner of `decodeURIComponent`: it is what a server reading the
  query sees, and it gives every encoded string back.
*/
module UriEncoding {
  import opened Wrappers

  /** uriAlpha, DecimalDigit and uriMark: the code points left as they are. */
  predicate IsUnescaped(c: char) {
    || ('A' <= c <= 'Z') || ('a' <= c <= 'z') || ('0' <= c <= '9')
    || c == '-' || c == '_' || c == '.' || c == '!' || c == '~'
    || c == '*' || c == '\'' || c == '(' || c == ')'
  }

  type Byte = b: int | 0 <= b < 256

  /** The UTF-8 encoding of a code point (section 3 of RFC 3629). */
  function Utf8(c: char): (bytes: seq<Byte>)
    ensures 1 <= |bytes| <= 4
    ensures |bytes| == 1 <==> c as int < 0x80
  {
    var n := c as int;
    var q1 := n / 64;
    var q2 := q1 / 64;
    var q3 := q2 / 64;
    if n < 0x80 then [n]
    else if n < 0x800 then [0xC0 + q1, 0x80 + n % 64]
    else if n < 0x10000 then [0xE0 + q2, 0x80 + q1 % 64, 0x80 + n % 64]
    else [0xF0 + q3, 0x80 + q2 % 64, 0x80 + q1 % 64, 0x80 + n % 64]
  }

  /** An upper-case hexadecimal digit. */
  function HexDigit(d: int): (c: char)
    requires 0 <= d < 16
    ensures IsUnescaped(c)
  {
    if d < 10 then ('0' as int + d) as char else ('A' as int + d - 10) as char
  }

  /** The `%HH` escape of one byte. */
  function Escape(b: Byte): (r: string)
    ensures |r| == 3 && r[0] == '%' && IsUnescaped(r[1]) && IsUnescaped(r[2])
  {
    ['%', HexDigit(b / 16), HexDigit(b % 16)]
  }

  function EscapeAll(bytes: seq<Byte>): (r: string)
    ensures |r| == 3 * |bytes|
    ensures forall c :: c in r ==> IsUnescaped(c) || c == '%'
  {
    if bytes == [] then "" else Escape(bytes[0]) + EscapeAll(bytes[1..])
  }

  /** One code point as `encodeURIComponent` writes it. */
  function EncodeChar(c: char): (r: string)
    ensures |r| >= 1
    ensures forall d :: d in r ==> IsUnescaped(d) || d == '%'
  {
    if IsUnescaped(c) then [c] else EscapeAll(Utf8(c))
  }

  /** `encodeURIComponent(s)`: only unescaped code points and `%` remain, so the output
      holds none of the separators `&` and `=` of a query string. */
  function EncodeUriComponent(s: string): (r: string)
    ensures forall c :: c in r ==> IsUnescaped(c) || c == '%'
    ensures '&' !in r && '=' !in r
  {
    if s == [] then "" else EncodeChar(s[0]) + EncodeUriComponent(s[1..])
  }

  /** The value of a hexadecimal digit of either case. */
  function HexValue(c: char): (r: Option<int>)
    ensures r.Some? ==> 0 <= r.value < 16
  {
    if '0' <= c <= '9' then Some(c as int - '0' as int)
    else if 'A' <= c <= 'F' then Some(c as int - 'A' as int + 10)
    else if 'a' <= c <= 'f' then Some(c as int - 'a' as int + 10)
    else None
  }

  /** The byte escaped as `%HH` at index `i` of `s`, if there is one. */
  function ByteAt(s: string, i: nat): (r: Option<Byte>)
    ensures r.Some? ==> i + 3 <= |s|
  {
    if i + 3 <= |s| && s[i] == '%' then
      match (HexValue(s[i + 1]), HexValue(s[i + 2]))
      case (Some(h), Some(l)) => Some(h * 16 + l)
      case _ => None
    else None
  }

  /** The six payload bits of a UTF-8 continuation byte escaped at index `i`. */
  function ContinuationAt(s: string, i: nat): (r: Option<int>)
    ensures r.Some? ==> i + 3 <= |s| && 0 <= r.value < 64
  {
    match ByteAt(s, i)
    case Some(b) => if 0x80 <= b < 0xC0 then Some(b - 0x80) else None
    case None => None
  }

  /** A decoded code point and the number of characters its escapes took, when `cp` is
      a Unicode scalar value that needed the number of bytes read (no overlong forms). */
  function Scalar(cp: int, least: int, len: nat): (r: Option<(char, nat)>)
    ensures r.Some? ==> r.value.1 == len
  {
    if 0 <= least <= cp < 0x110000 && !(0xD800 <= cp < 0xE000) then Some((cp as char, len)) else None
  }

  /** The code point whose UTF-8 escapes start `s`. */
  function DecodeSequence(s: string): (r: Option<(char, nat)>)
    ensures r.Some? ==> 3 <= r.value.1 <= |s|
  {
    match ByteAt(s, 0)
    case None => None
    case Some(b) =>
      if b < 0x80 then Some((b as char, 3))
      else if 0xC0 <= b < 0xE0 then
        match ContinuationAt(s, 3)
        case Some(x1) => Scalar((b - 0xC0) * 64 + x1, 0x80, 6)
        case None => None
      else if 0xE0 <= b < 0xF0 then
        match (ContinuationAt(s, 3), ContinuationAt(s, 6))
        case (Some(x1), Some(x2)) => Scalar(((b - 0xE0) * 64 + x1) * 64 + x2, 0x800, 9)
        case _ => None
      else if 0xF0 <= b < 0xF8 then
        match (ContinuationAt(s, 3), ContinuationAt(s, 6), ContinuationAt(s, 9))
        case (Some(x1), Some(x2), Some(x3)) =>
          Scalar((((b - 0xF0) * 64 + x1) * 64 + x2) * 64 + x3, 0x10000, 12)
        case _ => None
      else None
  }

  /** `decodeURIComponent(s)`, with None for the inputs on which it throws a URIError. */
  function DecodeUriComponent(s: string): Option<string>
    decreases |s|
  {
    if s == [] then Some([])
    else if s[0] != '%' then
      match DecodeUriComponent(s[1..])
      case Some(t) => Some([s[0]] + t)
      case None => None
    else
      match DecodeSequence(s)
      case None => None
      case Some((c, len)) =>
        match DecodeUriComponent(s[len..])
        case Some(t) => Some([c] + t)
        case None => None
  }

  lemma HexDigitValue(d: int)
    requires 0 <= d < 16
    ensures HexValue(HexDigit(d)) == Some(d)
  {
  }

  /** An escape is read back as the byte it escapes. */
  lemma ByteAtEscape(s: string, i: nat, b: Byte)
    requires i + 3 <= |s|
    requires s[i] == Escape(b)[0] && s[i + 1] == Escape(b)[1] && s[i + 2] == Escape(b)[2]
    ensures ByteAt(s, i) == Some(b)
  {
    HexDigitValue(b / 16);
    HexDigitValue(b % 16);
  }

  /** The three characters escaping byte `k` of a byte sequence. */
  lemma {:induction false} EscapeAt(bytes: seq<Byte>, rest: string, k: nat)
    requires k < |bytes|
    ensures var s, e := EscapeAll(bytes) + rest, Escape(bytes[k]);
      3 * k + 3 <= |s| && s[3 * k] == e[0] && s[3 * k + 1] == e[1] && s[3 * k + 2] == e[2]
  {
    var x := EscapeAll(bytes[1..]) + rest;
    assert EscapeAll(bytes) + rest == Escape(bytes[0]) + x;
    if k > 0 {
      EscapeAt(bytes[1..], rest, k - 1);
      assert bytes[1..][k - 1] == bytes[k];
    }
  }

  /** Byte `k` of a byte sequence is read back from its escape. */
  lemma ByteRead(bytes: seq<Byte>, rest: string, k: nat)
    requires k < |bytes|
    ensures ByteAt(EscapeAll(bytes) + rest, 3 * k) == Some(bytes[k])
  {
    EscapeAt(bytes, rest, k);
    ByteAtEscape(EscapeAll(bytes) + rest, 3 * k, bytes[k]);
  }

  lemma DecodeTwoBytes(s: string, b0: Byte, b1: Byte)
    requires ByteAt(s, 0) == Some(b0) && ByteAt(s, 3) == Some(b1)
    requires 0xC0 <= b0 < 0xE0 && 0x80 <= b1 < 0xC0
    ensures DecodeSequence(s) == Scalar((b0 as int - 0xC0) * 64 + (b1 as int - 0x80), 0x80, 6)
  {
    assert ContinuationAt(s, 3) == Some(b1 as int - 0x80);
  }

  lemma DecodeThreeBytes(s: string, b0: Byte, b1: Byte, b2: Byte)
    requires ByteAt(s, 0) == Some(b0) && ByteAt(s, 3) == Some(b1) && ByteAt(s, 6) == Some(b2)
    requires 0xE0 <= b0 < 0xF0 && 0x80 <= b1 < 0xC0 && 0x80 <= b2 < 0xC0
    ensures DecodeSequence(s)
         == Scalar(((b0 as int - 0xE0) * 64 + (b1 as int - 0x80)) * 64 + (b2 as int - 0x80), 0x800, 9)
  {
    assert ContinuationAt(s, 3) == Some(b1 as int - 0x80);
    assert ContinuationAt(s, 6) == Some(b2 as int - 0x80);
  }

  lemma DecodeFourBytes(s: string, b0: Byte, b1: Byte, b2: Byte, b3: Byte)
    requires ByteAt(s, 0) == Some(b0) && ByteAt(s, 3) == Some(b1)
    requires ByteAt(s, 6) == Some(b2) && ByteAt(s, 9) == Some(b3)
    requires 0xF0 <= b0 < 0xF8 && 0x80 <= b1 < 0xC0 && 0x80 <= b2 < 0xC0 && 0x80 <= b3 < 0xC0
    ensures DecodeSequence(s)
         == Scalar((((b0 as int - 0xF0) * 64 + (b1 as int - 0x80)) * 64 + (b2 as int - 0x80)) * 64
                   + (b3 as int - 0x80), 0x10000, 12)
  {
    assert ContinuationAt(s, 3) == Some(b1 as int - 0x80);
    assert ContinuationAt(s, 6) == Some(b2 as int - 0x80);
    assert ContinuationAt(s, 9) == Some(b3 as int - 0x80);
  }

  lemma DecodeEscapedOne(c: char, rest: string)
    requires c as int < 0x80
    ensures DecodeSequence(EscapeAll(Utf8(c)) + rest) == Some((c, 3))
  {
    ByteRead(Utf8(c), rest, 0);
  }

  lemma DecodeEscapedTwo(c: char, rest: string)
    requires 0x80 <= c as int < 0x800
    ensures DecodeSequence(EscapeAll(Utf8(c)) + rest) == Some((c, 6))
  {
    var bytes := Utf8(c);
    var n := c as int;
    var q1 := n / 64;
    assert bytes == [0xC0 + q1, 0x80 + n % 64];
    assert n == q1 * 64 + n % 64;
    ByteRead(bytes, rest, 0);
    ByteRead(bytes, rest, 1);
    DecodeTwoBytes(EscapeAll(bytes) + rest, bytes[0], bytes[1]);
  }

  lemma DecodeEscapedThree(c: char, rest: string)
    requires 0x800 <= c as int < 0x10000
    ensures DecodeSequence(EscapeAll(Utf8(c)) + rest) == Some((c, 9))
  {
    var bytes := Utf8(c);
    var n := c as int;
    var q1 := n / 64;
    var q2 := q1 / 64;
    assert bytes == [0xE0 + q2, 0x80 + q1 % 64, 0x80 + n % 64];
    assert n == q1 * 64 + n % 64 && q1 == q2 * 64 + q1 % 64;
    ByteRead(bytes, rest, 0);
    ByteRead(bytes, rest, 1);
    ByteRead(bytes, rest, 2);
    DecodeThreeBytes(EscapeAll(bytes) + rest, bytes[0], bytes[1], bytes[2]);
  }

  lemma DecodeEscapedFour(c: char, rest: string)
    requires 0x10000 <= c as int
    ensures DecodeSequence(EscapeAll(Utf8(c)) + rest) == Some((c, 12))
  {
    var bytes := Utf8(c);
    var n := c as int;
    var q1 := n / 64;
    var q2 := q1 / 64;
    var q3 := q2 / 64;
    assert bytes == [0xF0 + q3, 0x80 + q2 % 64, 0x80 + q1 % 64, 0x80 + n % 64];
    assert n == q1 * 64 + n % 64 && q1 == q2 * 64 + q1 % 64 && q2 == q3 * 64 + q2 % 64;
    ByteRead(bytes, rest, 0);
    ByteRead(bytes, rest, 1);
    ByteRead(bytes, rest, 2);
    ByteRead(bytes, rest, 3);
    DecodeFourBytes(EscapeAll(bytes) + rest, bytes[0], bytes[1], bytes[2], bytes[3]);
  }

  /** The escapes of a code point's UTF-8 bytes decode to that code point. */
  lemma DecodeEscapedChar(c: char, rest: string)
    requires !IsUnescaped(c)
    ensures DecodeSequence(EncodeChar(c) + rest) == Some((c, |EncodeChar(c)|))
  {
    var n := c as int;
    if n < 0x80 {
      DecodeEscapedOne(c, rest);
    } else if n < 0x800 {
      DecodeEscapedTwo(c, rest);
    } else if n < 0x10000 {
      DecodeEscapedThree(c, rest);
    } else {
      DecodeEscapedFour(c, rest);
    }
  }

  /** Decoding an encoded string gives the string back. */
  lemma {:induction false} DecodeEncode(s: string)
    ensures DecodeUriComponent(EncodeUriComponent(s)) == Some(s)
  {
    if s != [] {
      var c, rest := s[0], s[1..];
      var e := EncodeUriComponent(s);
      assert e == EncodeChar(c) + EncodeUriComponent(rest);
      DecodeEncode(rest);
      if IsUnescaped(c) {
        assert e[0] == c && c != '%';
        assert e[1..] == EncodeUriComponent(rest);
      } else {
        DecodeEscapedChar(c, EncodeUriComponent(rest));
        assert e[0] == '%';
        assert e[|EncodeChar(c)|..] == EncodeUriComponent(rest);
      }
      assert s == [c] + rest;
    }
  }

  /** Different strings have different encodings. */
  lemma EncodeInjective(s: string, t: string)
    requires EncodeUriComponent(s) == EncodeUriComponent(t)
    ensures s == t
  {
    DecodeEncode(s);
    DecodeEncode(t);
  }
}
