/**
 * `encodeURIComponent`: every character outside the unreserved set is
 * written as the `%XY` escapes of its UTF-8 bytes, with upper-case
 * hexadecimal digits (percent-encoding, section 2.1 of RFC 3986). A Dafny
 * `char` is a Unicode scalar value, so the lone-surrogate error of
 * `encodeURIComponent` cannot arise. `PercentDecode` is its inverse, in the
 * manner of `decodeURIComponent`.
 */
module Uri {
  import opened Wrappers
  import opened Text

  type Byte = b: int | 0 <= b < 256

  /** The characters `encodeURIComponent` copies: ASCII letters, digits and `-_.!~*'()`. */
  predicate IsUnreserved(c: char) {
    ('A' <= c <= 'Z') || ('a' <= c <= 'z') || IsDigit(c)
    || c == '-' || c == '_' || c == '.' || c == '!' || c == '~' || c == '*' || c == '\'' || c == '(' || c == ')'
  }

  /** The UTF-8 encoding of one code point. */
  function Utf8(c: char): (bs: seq<Byte>)
    ensures 1 <= |bs| <= 4
  {
    var n := c as int;
    if n < 0x80 then [n]
    else if n < 0x800 then [0xC0 + n / 64, 0x80 + n % 64]
    else if n < 0x10000 then [0xE0 + n / 4096, 0x80 + (n / 64) % 64, 0x80 + n % 64]
    else [0xF0 + n / 262144, 0x80 + (n / 4096) % 64, 0x80 + (n / 64) % 64, 0x80 + n % 64]
  }

  /** An upper-case hexadecimal digit. */
  function HexDigit(d: nat): (c: char)
    requires d < 16
    ensures IsUnreserved(c)
  {
    if d < 10 then (48 + d) as char else (55 + d) as char
  }

  /** The value of a hexadecimal digit of either case. */
  function HexValue(c: char): Option<nat> {
    if '0' <= c <= '9' then Some(c as int - 48)
    else if 'A' <= c <= 'F' then Some(c as int - 55)
    else if 'a' <= c <= 'f' then Some(c as int - 87)
    else None
  }

  /** `%XY` for one byte. */
  function PercentByte(b: Byte): (r: string)
    ensures |r| == 3 && r[0] == '%' && IsUnreserved(r[1]) && IsUnreserved(r[2])
  {
    ['%', HexDigit(b / 16), HexDigit(b % 16)]
  }

  function PercentBytes(bs: seq<Byte>): (r: string)
    ensures |r| == 3 * |bs|
    ensures forall i :: 0 <= i < |r| ==> IsUnreserved(r[i]) || r[i] == '%'
  {
    if bs == [] then [] else PercentByte(bs[0]) + PercentBytes(bs[1..])
  }

  function EncodeChar(c: char): (r: string)
    ensures 1 <= |r|
    ensures forall i :: 0 <= i < |r| ==> IsUnreserved(r[i]) || r[i] == '%'
  {
    if IsUnreserved(c) then [c] else PercentBytes(Utf8(c))
  }

  /** `encodeURIComponent(s)`: only unreserved characters and `%` appear in the result. */
  function EncodeURIComponent(s: string): (r: string)
    ensures |s| <= |r|
    ensures forall i :: 0 <= i < |r| ==> IsUnreserved(r[i]) || r[i] == '%'
  {
    if s == [] then [] else EncodeChar(s[0]) + EncodeURIComponent(s[1..])
  }

  /** Encoding works character by character. */
  lemma {:induction false} EncodeAppend(a: string, b: string)
    ensures EncodeURIComponent(a + b) == EncodeURIComponent(a) + EncodeURIComponent(b)
  {
    if a == [] {
      assert a + b == b;
    } else {
      assert (a + b)[1..] == a[1..] + b;
      EncodeAppend(a[1..], b);
    }
  }

  /** A string of unreserved characters is its own encoding. */
  lemma {:induction false} EncodeUnreserved(s: string)
    requires forall i :: 0 <= i < |s| ==> IsUnreserved(s[i])
    ensures EncodeURIComponent(s) == s
  {
    if s != [] {
      EncodeUnreserved(s[1..]);
    }
  }

  /** A space is encoded as `%20`. */
  lemma EncodeSpace()
    ensures EncodeURIComponent(" ") == "%20"
  {
    assert Utf8(' ') == [32];
    assert PercentByte(32) == "%20";
  }

  /** The byte written as `%XY` at position `k` of `r`, if one is there. */
  function ByteAt(r: string, k: nat): Option<Byte> {
    if k + 3 <= |r| && r[k] == '%' && HexValue(r[k + 1]).Some? && HexValue(r[k + 2]).Some? then
      Some(16 * HexValue(r[k + 1]).value + HexValue(r[k + 2]).value)
    else None
  }

  /** The six payload bits of the UTF-8 continuation byte at position `k` of `r`. */
  function ContinuationAt(r: string, k: nat): (o: Option<nat>)
    ensures o.Some? ==> o.value < 64
  {
    match ByteAt(r, k)
    case Some(b) => if 0x80 <= b < 0xC0 then Some(b - 0x80) else None
    case None => None
  }

  /** A scalar value that a `char` can hold. */
  predicate IsScalar(n: int) {
    (0 <= n < 0xD800) || (0xE000 <= n < 0x110000)
  }

  /**
   * The first character `r` stands for, and how many characters of `r` it
   * takes: a plain character, or the `%XY` escapes of one UTF-8 sequence
   * (over-long forms, surrogates and values past U+10FFFF are rejected).
   */
  function DecodeFirst(r: string): (o: Option<(char, nat)>)
    requires r != []
    ensures o.Some? ==> 1 <= o.value.1 <= |r|
  {
    if r[0] != '%' then Some((r[0], 1))
    else if ByteAt(r, 0).None? then None
    else
      var b0 := ByteAt(r, 0).value;
      if b0 < 0x80 then Some((b0 as char, 3))
      else if 0xC2 <= b0 < 0xE0 then
        if ContinuationAt(r, 3).None? then None
        else Some((((b0 - 0xC0) * 64 + ContinuationAt(r, 3).value) as char, 6))
      else if 0xE0 <= b0 < 0xF0 then
        if ContinuationAt(r, 3).None? || ContinuationAt(r, 6).None? then None
        else
          var n := (b0 - 0xE0) * 4096 + ContinuationAt(r, 3).value * 64 + ContinuationAt(r, 6).value;
          if 0x800 <= n && IsScalar(n) then Some((n as char, 9)) else None
      else if 0xF0 <= b0 < 0xF5 then
        if ContinuationAt(r, 3).None? || ContinuationAt(r, 6).None? || ContinuationAt(r, 9).None? then None
        else
          var n := (b0 - 0xF0) * 262144 + ContinuationAt(r, 3).value * 4096
                   + ContinuationAt(r, 6).value * 64 + ContinuationAt(r, 9).value;
          if 0x10000 <= n && IsScalar(n) then Some((n as char, 12)) else None
      else None
  }

  /** The string a percent-encoded string stands for; `None` if it is malformed. */
  function PercentDecode(r: string): Option<string>
    decreases |r|
  {
    if r == [] then Some([])
    else match DecodeFirst(r)
      case None => None
      case Some(p) =>
        match PercentDecode(r[p.1..])
        case None => None
        case Some(t) => Some([p.0] + t)
  }

  lemma HexRoundTrip(d: nat)
    requires d < 16
    ensures HexValue(HexDigit(d)) == Some(d)
  {
  }

  /** An escape `%XY` at position `k` reads back as its byte. */
  lemma ByteAtEscape(r: string, k: nat, b: Byte)
    requires k + 3 <= |r| && r[k] == '%' && r[k + 1] == HexDigit(b / 16) && r[k + 2] == HexDigit(b % 16)
    ensures ByteAt(r, k) == Some(b)
  {
    HexRoundTrip(b / 16);
    HexRoundTrip(b % 16);
  }

  /** The escape of byte `j` sits at position `3 * j` of the escapes. */
  lemma {:induction false} PercentBytesAt(bs: seq<Byte>, j: nat)
    requires j < |bs|
    ensures var e := PercentBytes(bs);
      && 3 * j + 3 <= |e| && e[3 * j] == '%'
      && e[3 * j + 1] == HexDigit(bs[j] / 16) && e[3 * j + 2] == HexDigit(bs[j] % 16)
  {
    if j > 0 {
      PercentBytesAt(bs[1..], j - 1);
    }
  }

  /** An escape inside `e` still reads back once more text follows `e`. */
  lemma EscapeBeforeRest(e: string, rest: string, k: nat, b: Byte)
    requires k + 3 <= |e| && e[k] == '%' && e[k + 1] == HexDigit(b / 16) && e[k + 2] == HexDigit(b % 16)
    ensures ByteAt(e + rest, k) == Some(b)
  {
    ByteAtEscape(e + rest, k, b);
  }

  /** The escapes of a byte sequence read back byte by byte, whatever follows them. */
  lemma EscapeReadBack(bs: seq<Byte>, rest: string, j: nat)
    requires j < |bs|
    ensures ByteAt(PercentBytes(bs) + rest, 3 * j) == Some(bs[j])
  {
    PercentBytesAt(bs, j);
    EscapeBeforeRest(PercentBytes(bs), rest, 3 * j, bs[j]);
  }

  /** Decoding the encoding of one character gives that character back and consumes exactly its encoding. */
  lemma DecodeFirstEncodeChar(c: char, rest: string)
    ensures DecodeFirst(EncodeChar(c) + rest) == Some((c, |EncodeChar(c)|))
  {
    if !IsUnreserved(c) {
      var n := c as int;
      if n < 0x80 {
        DecodeFirstOneByte(c, rest);
      } else if n < 0x800 {
        DecodeFirstTwoBytes(c, rest);
      } else if n < 0x10000 {
        DecodeFirstThreeBytes(c, rest);
      } else {
        DecodeFirstFourBytes(c, rest);
      }
    }
  }

  lemma DecodeFirstOneByte(c: char, rest: string)
    requires !IsUnreserved(c) && c as int < 0x80
    ensures DecodeFirst(EncodeChar(c) + rest) == Some((c, |EncodeChar(c)|))
  {
    var bs := Utf8(c);
    assert EncodeChar(c) == PercentBytes(bs);
    EscapeReadBack(bs, rest, 0);
  }

  lemma DecodeFirstTwoBytes(c: char, rest: string)
    requires !IsUnreserved(c) && 0x80 <= c as int < 0x800
    ensures DecodeFirst(EncodeChar(c) + rest) == Some((c, |EncodeChar(c)|))
  {
    var n := c as int;
    var bs := Utf8(c);
    var r := EncodeChar(c) + rest;
    assert EncodeChar(c) == PercentBytes(bs);
    EscapeReadBack(bs, rest, 0);
    EscapeReadBack(bs, rest, 1);
    assert ContinuationAt(r, 3) == Some(bs[1] - 0x80);
    assert (bs[0] as int - 0xC0) * 64 + (bs[1] as int - 0x80) == n;
  }

  lemma DecodeFirstThreeBytes(c: char, rest: string)
    requires !IsUnreserved(c) && 0x800 <= c as int < 0x10000
    ensures DecodeFirst(EncodeChar(c) + rest) == Some((c, |EncodeChar(c)|))
  {
    var bs := Utf8(c);
    assert EncodeChar(c) == PercentBytes(bs);
    Utf8ThreeBytes(c);
    EscapeReadBack(bs, rest, 0);
    EscapeReadBack(bs, rest, 1);
    EscapeReadBack(bs, rest, 2);
    DecodeThreeEscapes(EncodeChar(c) + rest, bs[0], bs[1], bs[2]);
  }

  lemma DecodeFirstFourBytes(c: char, rest: string)
    requires !IsUnreserved(c) && 0x10000 <= c as int
    ensures DecodeFirst(EncodeChar(c) + rest) == Some((c, |EncodeChar(c)|))
  {
    var bs := Utf8(c);
    assert EncodeChar(c) == PercentBytes(bs);
    Utf8FourBytes(c);
    EscapeReadBack(bs, rest, 0);
    EscapeReadBack(bs, rest, 1);
    EscapeReadBack(bs, rest, 2);
    EscapeReadBack(bs, rest, 3);
    DecodeFourEscapes(EncodeChar(c) + rest, bs[0], bs[1], bs[2], bs[3]);
  }

  /** A three-byte lead escape and two continuation escapes decode to the code point they combine to. */
  lemma DecodeThreeEscapes(r: string, b0: Byte, b1: Byte, b2: Byte)
    requires r != [] && ByteAt(r, 0) == Some(b0) && ByteAt(r, 3) == Some(b1) && ByteAt(r, 6) == Some(b2)
    requires 0xE0 <= b0 < 0xF0 && 0x80 <= b1 < 0xC0 && 0x80 <= b2 < 0xC0
    requires var n := (b0 - 0xE0) * 4096 + (b1 - 0x80) * 64 + (b2 - 0x80); 0x800 <= n && IsScalar(n)
    ensures DecodeFirst(r) == Some((((b0 - 0xE0) * 4096 + (b1 - 0x80) * 64 + (b2 - 0x80)) as char, 9))
  {
    assert ContinuationAt(r, 3) == Some(b1 - 0x80);
    assert ContinuationAt(r, 6) == Some(b2 - 0x80);
  }

  /** A four-byte lead escape and three continuation escapes decode to the code point they combine to. */
  lemma DecodeFourEscapes(r: string, b0: Byte, b1: Byte, b2: Byte, b3: Byte)
    requires r != [] && ByteAt(r, 0) == Some(b0) && ByteAt(r, 3) == Some(b1)
    requires ByteAt(r, 6) == Some(b2) && ByteAt(r, 9) == Some(b3)
    requires 0xF0 <= b0 < 0xF5 && 0x80 <= b1 < 0xC0 && 0x80 <= b2 < 0xC0 && 0x80 <= b3 < 0xC0
    requires var n := (b0 - 0xF0) * 262144 + (b1 - 0x80) * 4096 + (b2 - 0x80) * 64 + (b3 - 0x80);
      0x10000 <= n && IsScalar(n)
    ensures DecodeFirst(r) ==
      Some((((b0 - 0xF0) * 262144 + (b1 - 0x80) * 4096 + (b2 - 0x80) * 64 + (b3 - 0x80)) as char, 12))
  {
    assert ContinuationAt(r, 3) == Some(b1 - 0x80);
    assert ContinuationAt(r, 6) == Some(b2 - 0x80);
    assert ContinuationAt(r, 9) == Some(b3 - 0x80);
  }

  /** A code point in U+0800..U+FFFF: a lead byte, two continuation bytes, and their payloads recombine to it. */
  lemma Utf8ThreeBytes(c: char)
    requires 0x800 <= c as int < 0x10000
    ensures var bs := Utf8(c);
      && |bs| == 3 && 0xE0 <= bs[0] < 0xF0 && 0x80 <= bs[1] < 0xC0 && 0x80 <= bs[2] < 0xC0
      && (bs[0] as int - 0xE0) * 4096 + (bs[1] as int - 0x80) * 64 + (bs[2] as int - 0x80) == c as int
  {
    var n := c as int;
    assert Utf8(c) == [0xE0 + n / 4096, 0x80 + (n / 64) % 64, 0x80 + n % 64];
    Utf8Three(n);
  }

  /** A code point in U+10000..U+10FFFF: a lead byte, three continuation bytes, and their payloads recombine to it. */
  lemma Utf8FourBytes(c: char)
    requires 0x10000 <= c as int
    ensures var bs := Utf8(c);
      && |bs| == 4 && 0xF0 <= bs[0] < 0xF5 && 0x80 <= bs[1] < 0xC0 && 0x80 <= bs[2] < 0xC0 && 0x80 <= bs[3] < 0xC0
      && (bs[0] as int - 0xF0) * 262144 + (bs[1] as int - 0x80) * 4096 + (bs[2] as int - 0x80) * 64 + (bs[3] as int - 0x80) == c as int
  {
    var n := c as int;
    assert Utf8(c) == [0xF0 + n / 262144, 0x80 + (n / 4096) % 64, 0x80 + (n / 64) % 64, 0x80 + n % 64];
    Utf8Four(n);
  }

  /** The three bytes of a code point in U+0800..U+FFFF recombine to it. */
  lemma Utf8Three(n: int)
    requires 0x800 <= n < 0x10000
    ensures (n / 4096) * 4096 + ((n / 64) % 64) * 64 + n % 64 == n
  {
    var q := n / 64;
    assert n == 64 * q + n % 64;
    assert q == 64 * (q / 64) + q % 64;
    assert q / 64 == n / 4096;
  }

  /** The four bytes of a code point in U+10000..U+10FFFF recombine to it. */
  lemma Utf8Four(n: int)
    requires 0x10000 <= n < 0x110000
    ensures (n / 262144) * 262144 + ((n / 4096) % 64) * 4096 + ((n / 64) % 64) * 64 + n % 64 == n
  {
    var q := n / 64;
    var q2 := q / 64;
    assert n == 64 * q + n % 64;
    assert q == 64 * q2 + q % 64;
    assert q2 == 64 * (q2 / 64) + q2 % 64;
    assert q2 == n / 4096;
    assert q2 / 64 == n / 262144;
  }

  /** Decoding inverts encoding. */
  lemma {:induction false} DecodeEncode(s: string)
    ensures PercentDecode(EncodeURIComponent(s)) == Some(s)
  {
    if s != [] {
      var e := EncodeChar(s[0]);
      var r := EncodeURIComponent(s);
      assert r == e + EncodeURIComponent(s[1..]);
      DecodeFirstEncodeChar(s[0], EncodeURIComponent(s[1..]));
      assert r[|e|..] == EncodeURIComponent(s[1..]);
      DecodeEncode(s[1..]);
      assert [s[0]] + s[1..] == s;
    }
  }

  /** Encoding is one-to-one: distinct strings have distinct encodings. */
  lemma EncodeInjective(s: string, t: string)
    requires EncodeURIComponent(s) == EncodeURIComponent(t)
    ensures s == t
  {
    DecodeEncode(s);
    DecodeEncode(t);
  }
}
