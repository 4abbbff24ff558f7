/**
 * `encodeURIComponent` as the abstract operation Encode of ECMAScript
 * (ECMA-262, section 19.2.6.5) defines it for a string of Unicode scalar
 * values: characters of the unreserved set are kept, every other code point
 * is written as the percent-escaped bytes of its UTF-8 encoding, with
 * upper-case hexadecimal digits.
 *
 * The decoder below is the inverse a receiving server applies to a query
 * value (the percent-decoding of `decodeURIComponent`, ECMA-262 section
 * 19.2.6.6); it is the partner the encoder's round trip is proved against.
 */
module Uri {
  import opened Wrappers

  type Byte = b: int | 0 <= b < 256

  /** The characters encodeURIComponent leaves as they are: letters, digits and - _ . ! ~ * ' ( ). */
  predicate IsUnreserved(c: char) {
    ('A' <= c <= 'Z') || ('a' <= c <= 'z') || ('0' <= c <= '9') ||
    c == '-' || c == '_' || c == '.' || c == '!' || c == '~' || c == '*' || c == '\'' || c == '(' || c == ')'
  }

  /**
   * The UTF-8 encoding of one code point: one to four bytes depending on its
   * magnitude, the code point's bits cut into six-bit groups from the right.
   */
  function Utf8(c: char): (bytes: seq<Byte>)
    ensures 1 <= |bytes| <= 4
  {
    var n := c as int;
    var q1 := n / 64;
    var q2 := q1 / 64;
    if n < 0x80 then [n]
    else if n < 0x800 then [0xC0 + q1, 0x80 + n % 64]
    else if n < 0x1_0000 then [0xE0 + q2, 0x80 + q1 % 64, 0x80 + n % 64]
    else [0xF0 + q2 / 64, 0x80 + q2 % 64, 0x80 + q1 % 64, 0x80 + n % 64]
  }

  function HexDigit(d: nat): (c: char)
    requires d < 16
  {
    if d < 10 then (('0' as int) + d) as char else (('A' as int) + d - 10) as char
  }

  /** One byte as `%XY`. */
  function Escape(b: Byte): string {
    ['%', HexDigit(b / 16), HexDigit(b % 16)]
  }

  function EscapeBytes(bytes: seq<Byte>): string
    decreases |bytes|
  {
    if bytes == [] then [] else Escape(bytes[0]) + EscapeBytes(bytes[1..])
  }

  function EncodeChar(c: char): string {
    if IsUnreserved(c) then [c] else EscapeBytes(Utf8(c))
  }

  /** "Only unreserved characters and `%`". */
  predicate QuerySafe(s: string) {
    forall i :: 0 <= i < |s| ==> IsUnreserved(s[i]) || s[i] == '%'
  }

  /** A string of unreserved characters and `%` holds no other character. */
  lemma QuerySafeExcludes(s: string, c: char)
    requires QuerySafe(s) && !IsUnreserved(c) && c != '%'
    ensures c !in s
  {
    forall k | 0 <= k < |s| ensures s[k] != c {
    }
  }

  lemma {:induction false} EscapeBytesSafe(bytes: seq<Byte>)
    ensures QuerySafe(EscapeBytes(bytes))
    decreases |bytes|
  {
    if bytes != [] {
      EscapeBytesSafe(bytes[1..]);
    }
  }

  lemma EncodeCharSafe(c: char)
    ensures QuerySafe(EncodeChar(c))
  {
    if !IsUnreserved(c) {
      EscapeBytesSafe(Utf8(c));
    }
  }

  /**
   * `encodeURIComponent(s)`. Every character of the result is unreserved or
   * `%`, so the result contains none of the characters that delimit a URL
   * path segment or a query parameter (`/`, `?`, `#`, `&`, `=`, `+`, `,`).
   */
  function EncodeURIComponent(s: string): (r: string)
    ensures forall i :: 0 <= i < |r| ==> IsUnreserved(r[i]) || r[i] == '%'
    decreases |s|
  {
    if s == [] then []
    else
      EncodeCharSafe(s[0]);
      EncodeChar(s[0]) + EncodeURIComponent(s[1..])
  }

  // ---------------------------------------------------------------------------
  // Decoding
  // ---------------------------------------------------------------------------

  /** The value of a hexadecimal digit, in either case. */
  function HexValue(c: char): Option<nat> {
    if '0' <= c <= '9' then Some((c as int) - ('0' as int))
    else if 'A' <= c <= 'F' then Some((c as int) - ('A' as int) + 10)
    else if 'a' <= c <= 'f' then Some((c as int) - ('a' as int) + 10)
    else None
  }

  /** The byte that a leading `%XY` of `s` stands for. */
  function LeadByte(s: string): (r: Option<Byte>)
    ensures r.Some? ==> |s| >= 3
  {
    if |s| < 3 || s[0] != '%' then None
    else match (HexValue(s[1]), HexValue(s[2]))
      case (Some(h), Some(l)) => if h < 16 && l < 16 then Some(h * 16 + l) else None
      case _ => None
  }

  predicate IsContinuation(b: Byte) {
    0x80 <= b < 0xC0
  }

  /**
   * Reads `count` escaped continuation bytes from the front of `s`, shifting
   * their six payload bits each into `acc`.
   */
  function Trail(s: string, count: nat, acc: int): (r: Option<int>)
    ensures r.Some? ==> 3 * count <= |s|
    decreases count
  {
    if count == 0 then Some(acc)
    else match LeadByte(s)
      case Some(b) => if IsContinuation(b) then Trail(s[3..], count - 1, acc * 64 + (b - 0x80)) else None
      case None => None
  }

  /** The character with code point `n` taking `k` characters, unless `n` is overlong (below `min`) or not a scalar value. */
  function Finish(n: int, min: int, k: nat): Option<(char, nat)> {
    if n < min then None
    else if 0 <= n < 0xD800 || 0xE000 <= n < 0x11_0000 then Some((n as char, k))
    else None
  }

  /** A lead escape carrying `bits`, followed by `count` continuation escapes, decoding to at least `min`. */
  function Sequence(s: string, bits: int, count: nat, min: int): (r: Option<(char, nat)>)
    requires |s| >= 3
    ensures r.Some? ==> r.value.1 == 3 + 3 * count <= |s|
  {
    match Trail(s[3..], count, bits)
    case Some(n) => Finish(n, min, 3 + 3 * count)
    case None => None
  }

  /**
   * Decodes the first unit of `s`: a character that is not `%`, or one
   * percent-escaped UTF-8 sequence. Gives the character and the number of
   * characters of `s` it took. Overlong forms, surrogates and code points
   * above U+10FFFF are rejected, as decodeURIComponent rejects them.
   */
  function DecodeOne(s: string): (r: Option<(char, nat)>)
    requires s != []
    ensures r.Some? ==> 1 <= r.value.1 <= |s|
  {
    if s[0] != '%' then Some((s[0], 1))
    else match LeadByte(s)
      case None => None
      case Some(b0) =>
        if b0 < 0x80 then Some((b0 as char, 3))
        else if 0xC2 <= b0 < 0xE0 then Sequence(s, b0 - 0xC0, 1, 0x80)
        else if 0xE0 <= b0 < 0xF0 then Sequence(s, b0 - 0xE0, 2, 0x800)
        else if 0xF0 <= b0 < 0xF5 then Sequence(s, b0 - 0xF0, 3, 0x1_0000)
        else None
  }

  /** Percent-decoding of a whole string; None when it holds a malformed escape. */
  function Decode(s: string): Option<string>
    decreases |s|
  {
    if s == [] then Some([])
    else match DecodeOne(s)
      case None => None
      case Some((c, k)) =>
        match Decode(s[k..])
        case None => None
        case Some(t) => Some([c] + t)
  }

  // ---------------------------------------------------------------------------
  // The round trip
  // ---------------------------------------------------------------------------

  lemma LeadByteOfEscape(b: Byte, rest: string)
    ensures LeadByte(Escape(b) + rest) == Some(b)
    ensures (Escape(b) + rest)[3..] == rest
  {
    var s := Escape(b) + rest;
    assert s[0] == '%' && s[1] == HexDigit(b / 16) && s[2] == HexDigit(b % 16);
    assert HexValue(HexDigit(b / 16)) == Some(b / 16);
    assert HexValue(HexDigit(b % 16)) == Some(b % 16);
  }

  /** An escaped continuation byte at the front contributes its payload bits and is consumed. */
  lemma TrailStep(b: Byte, t: string, count: nat, acc: int)
    requires count > 0 && IsContinuation(b)
    ensures Trail(Escape(b) + t, count, acc) == Trail(t, count - 1, acc * 64 + (b - 0x80))
  {
    LeadByteOfEscape(b, t);
  }

  lemma EscapeBytesCons(b: Byte, bs: seq<Byte>)
    ensures EscapeBytes([b] + bs) == Escape(b) + EscapeBytes(bs)
  {
    assert ([b] + bs)[1..] == bs;
  }

  lemma FinishScalar(c: char, min: int, k: nat)
    requires min <= c as int
    ensures Finish(c as int, min, k) == Some((c, k))
  {
  }

  lemma EscapedOne(c: char)
    requires !IsUnreserved(c) && c as int < 0x80
    ensures EncodeChar(c) == Escape(c as int)
  {
    var b0: Byte := c as int;
    assert Utf8(c) == [b0] + [];
    EscapeBytesCons(b0, []);
    assert EscapeBytes([]) == [];
  }

  lemma EscapedTwo(c: char)
    requires !IsUnreserved(c) && 0x80 <= c as int < 0x800
    ensures var n := c as int; EncodeChar(c) == Escape(0xC0 + n / 64) + Escape(0x80 + n % 64)
  {
    var n := c as int;
    var b0: Byte, b1: Byte := 0xC0 + n / 64, 0x80 + n % 64;
    assert Utf8(c) == [b0] + [b1];
    EscapeBytesCons(b1, []);
    EscapeBytesCons(b0, [b1]);
  }

  lemma EscapedThree(c: char)
    requires !IsUnreserved(c) && 0x800 <= c as int < 0x1_0000
    ensures var n := c as int; var q1 := n / 64;
      EncodeChar(c) == Escape(0xE0 + q1 / 64) + (Escape(0x80 + q1 % 64) + Escape(0x80 + n % 64))
  {
    var n := c as int;
    var q1 := n / 64;
    var b0: Byte, b1: Byte, b2: Byte := 0xE0 + q1 / 64, 0x80 + q1 % 64, 0x80 + n % 64;
    assert Utf8(c) == [b0] + ([b1] + [b2]);
    EscapeBytesCons(b2, []);
    EscapeBytesCons(b1, [b2]);
    EscapeBytesCons(b0, [b1] + [b2]);
  }

  lemma EscapedFour(c: char)
    requires !IsUnreserved(c) && 0x1_0000 <= c as int
    ensures var n := c as int; var q1 := n / 64; var q2 := q1 / 64;
      EncodeChar(c) == Escape(0xF0 + q2 / 64) + (Escape(0x80 + q2 % 64) + (Escape(0x80 + q1 % 64) + Escape(0x80 + n % 64)))
  {
    var n := c as int;
    var q1 := n / 64;
    var q2 := q1 / 64;
    var b0: Byte, b1: Byte, b2: Byte, b3: Byte := 0xF0 + q2 / 64, 0x80 + q2 % 64, 0x80 + q1 % 64, 0x80 + n % 64;
    assert Utf8(c) == [b0] + ([b1] + ([b2] + [b3]));
    assert EscapeBytes([b3]) == Escape(b3) by { EscapeBytesCons(b3, []); }
    assert EscapeBytes([b2] + [b3]) == Escape(b2) + Escape(b3) by { EscapeBytesCons(b2, [b3]); }
    assert EscapeBytes([b1] + ([b2] + [b3])) == Escape(b1) + (Escape(b2) + Escape(b3)) by { EscapeBytesCons(b1, [b2] + [b3]); }
    EscapeBytesCons(b0, [b1] + ([b2] + [b3]));
  }

  lemma EncodeCharOne(c: char, rest: string)
    requires !IsUnreserved(c) && c as int < 0x80
    ensures |EncodeChar(c)| == 3
    ensures DecodeOne(EncodeChar(c) + rest) == Some((c, 3))
  {
    EscapedOne(c);
    LeadByteOfEscape(c as int, rest);
  }

  lemma Regroup(a: string, b: string, rest: string)
    ensures (a + b) + rest == a + (b + rest)
  {
  }

  /** How `DecodeOne` dispatches on a lead byte that starts a multi-byte sequence. */
  lemma DecodeOneLead(s: string, b0: Byte)
    requires s != [] && s[0] == '%' && LeadByte(s) == Some(b0)
    ensures 0xC2 <= b0 < 0xE0 ==> DecodeOne(s) == Sequence(s, b0 - 0xC0, 1, 0x80)
    ensures 0xE0 <= b0 < 0xF0 ==> DecodeOne(s) == Sequence(s, b0 - 0xE0, 2, 0x800)
    ensures 0xF0 <= b0 < 0xF5 ==> DecodeOne(s) == Sequence(s, b0 - 0xF0, 3, 0x1_0000)
  {
  }

  /** A lead escape in 0xC2..0xDF and one continuation escape decode as a two-byte sequence. */
  lemma DecodeTwoBytes(b0: Byte, b1: Byte, rest: string)
    requires 0xC2 <= b0 < 0xE0 && IsContinuation(b1)
    ensures DecodeOne(Escape(b0) + (Escape(b1) + rest)) == Finish((b0 - 0xC0) * 64 + (b1 - 0x80), 0x80, 6)
  {
    var t1 := Escape(b1) + rest;
    var s := Escape(b0) + t1;
    assert LeadByte(s) == Some(b0) && s[3..] == t1 by { LeadByteOfEscape(b0, t1); }
    assert Trail(t1, 1, b0 - 0xC0) == Some((b0 - 0xC0) * 64 + (b1 - 0x80)) by { TrailStep(b1, rest, 1, b0 - 0xC0); }
    DecodeOneLead(s, b0);
  }

  lemma DecodeThreeBytes(b0: Byte, b1: Byte, b2: Byte, rest: string)
    requires 0xE0 <= b0 < 0xF0 && IsContinuation(b1) && IsContinuation(b2)
    ensures DecodeOne(Escape(b0) + (Escape(b1) + (Escape(b2) + rest)))
         == Finish(((b0 - 0xE0) * 64 + (b1 - 0x80)) * 64 + (b2 - 0x80), 0x800, 9)
  {
    var t2 := Escape(b2) + rest;
    var t1 := Escape(b1) + t2;
    var s := Escape(b0) + t1;
    var x1 := (b0 - 0xE0) * 64 + (b1 - 0x80);
    assert LeadByte(s) == Some(b0) && s[3..] == t1 by { LeadByteOfEscape(b0, t1); }
    assert Trail(t1, 2, b0 - 0xE0) == Trail(t2, 1, x1) by { TrailStep(b1, t2, 2, b0 - 0xE0); }
    assert Trail(t2, 1, x1) == Some(x1 * 64 + (b2 - 0x80)) by { TrailStep(b2, rest, 1, x1); }
    DecodeOneLead(s, b0);
  }

  lemma DecodeFourBytes(b0: Byte, b1: Byte, b2: Byte, b3: Byte, rest: string)
    requires 0xF0 <= b0 < 0xF5 && IsContinuation(b1) && IsContinuation(b2) && IsContinuation(b3)
    ensures DecodeOne(Escape(b0) + (Escape(b1) + (Escape(b2) + (Escape(b3) + rest))))
         == Finish((((b0 - 0xF0) * 64 + (b1 - 0x80)) * 64 + (b2 - 0x80)) * 64 + (b3 - 0x80), 0x1_0000, 12)
  {
    var t3 := Escape(b3) + rest;
    var t2 := Escape(b2) + t3;
    var t1 := Escape(b1) + t2;
    var s := Escape(b0) + t1;
    var x1 := (b0 - 0xF0) * 64 + (b1 - 0x80);
    var x2 := x1 * 64 + (b2 - 0x80);
    assert LeadByte(s) == Some(b0) && s[3..] == t1 by { LeadByteOfEscape(b0, t1); }
    assert Trail(t1, 3, b0 - 0xF0) == Trail(t2, 2, x1) by { TrailStep(b1, t2, 3, b0 - 0xF0); }
    assert Trail(t2, 2, x1) == Trail(t3, 1, x2) by { TrailStep(b2, t3, 2, x1); }
    assert Trail(t3, 1, x2) == Some(x2 * 64 + (b3 - 0x80)) by { TrailStep(b3, rest, 1, x2); }
    DecodeOneLead(s, b0);
  }

  /** The two escapes of a two-byte sequence decode to the character they came from. */
  lemma DecodeTwo(c: char, rest: string)
    requires 0x80 <= c as int < 0x800
    ensures var n := c as int; DecodeOne(Escape(0xC0 + n / 64) + (Escape(0x80 + n % 64) + rest)) == Some((c, 6))
  {
    var n := c as int;
    DecodeTwoBytes(0xC0 + n / 64, 0x80 + n % 64, rest);
    FinishScalar(c, 0x80, 6);
  }

  lemma DecodeThree(c: char, rest: string)
    requires 0x800 <= c as int < 0x1_0000
    ensures var n := c as int; var q1 := n / 64;
      DecodeOne(Escape(0xE0 + q1 / 64) + (Escape(0x80 + q1 % 64) + (Escape(0x80 + n % 64) + rest))) == Some((c, 9))
  {
    var n := c as int;
    var q1 := n / 64;
    DecodeThreeBytes(0xE0 + q1 / 64, 0x80 + q1 % 64, 0x80 + n % 64, rest);
    FinishScalar(c, 0x800, 9);
  }

  lemma DecodeFour(c: char, rest: string)
    requires 0x1_0000 <= c as int
    ensures var n := c as int; var q1 := n / 64; var q2 := q1 / 64;
      DecodeOne(Escape(0xF0 + q2 / 64) + (Escape(0x80 + q2 % 64) + (Escape(0x80 + q1 % 64) + (Escape(0x80 + n % 64) + rest))))
        == Some((c, 12))
  {
    var n := c as int;
    var q1 := n / 64;
    var q2 := q1 / 64;
    DecodeFourBytes(0xF0 + q2 / 64, 0x80 + q2 % 64, 0x80 + q1 % 64, 0x80 + n % 64, rest);
    assert q2 / 64 * 64 + q2 % 64 == q2;
    assert q2 * 64 + q1 % 64 == q1;
    FinishScalar(c, 0x1_0000, 12);
  }

  lemma EncodeCharTwo(c: char, rest: string)
    requires !IsUnreserved(c) && 0x80 <= c as int < 0x800
    ensures |EncodeChar(c)| == 6
    ensures DecodeOne(EncodeChar(c) + rest) == Some((c, 6))
  {
    var bs := Utf8(c);
    assert |bs| == 2;
    var e0, e1 := Escape(bs[0]), Escape(bs[1]);
    assert EncodeChar(c) == e0 + e1 by { EscapedTwo(c); }
    assert DecodeOne(e0 + (e1 + rest)) == Some((c, 6)) by { DecodeTwo(c, rest); }
    Regroup(e0, e1, rest);
  }

  lemma EncodeCharThree(c: char, rest: string)
    requires !IsUnreserved(c) && 0x800 <= c as int < 0x1_0000
    ensures |EncodeChar(c)| == 9
    ensures DecodeOne(EncodeChar(c) + rest) == Some((c, 9))
  {
    var bs := Utf8(c);
    assert |bs| == 3;
    var e0, e1, e2 := Escape(bs[0]), Escape(bs[1]), Escape(bs[2]);
    assert EncodeChar(c) == e0 + (e1 + e2) by { EscapedThree(c); }
    assert DecodeOne(e0 + (e1 + (e2 + rest))) == Some((c, 9)) by { DecodeThree(c, rest); }
    Regroup(e0, e1 + e2, rest);
    Regroup(e1, e2, rest);
  }

  lemma EncodeCharFour(c: char, rest: string)
    requires !IsUnreserved(c) && 0x1_0000 <= c as int
    ensures |EncodeChar(c)| == 12
    ensures DecodeOne(EncodeChar(c) + rest) == Some((c, 12))
  {
    var bs := Utf8(c);
    assert |bs| == 4;
    var e0, e1, e2, e3 := Escape(bs[0]), Escape(bs[1]), Escape(bs[2]), Escape(bs[3]);
    assert EncodeChar(c) == e0 + (e1 + (e2 + e3)) by { EscapedFour(c); }
    assert DecodeOne(e0 + (e1 + (e2 + (e3 + rest)))) == Some((c, 12)) by { DecodeFour(c, rest); }
    Regroup(e0, e1 + (e2 + e3), rest);
    Regroup(e1, e2 + e3, rest);
    Regroup(e2, e3, rest);
  }

  /** Decoding the encoding of one character, followed by anything, gives back that character. */
  lemma DecodeOneEncodeChar(c: char, rest: string)
    ensures DecodeOne(EncodeChar(c) + rest) == Some((c, |EncodeChar(c)|))
  {
    var n := c as int;
    if IsUnreserved(c) {
    } else if n < 0x80 {
      EncodeCharOne(c, rest);
    } else if n < 0x800 {
      EncodeCharTwo(c, rest);
    } else if n < 0x1_0000 {
      EncodeCharThree(c, rest);
    } else {
      EncodeCharFour(c, rest);
    }
  }

  /** One step of `Decode`: the first unit, then the rest. */
  lemma DecodeStep(t: string, c: char, k: nat, tail: string)
    requires t != [] && DecodeOne(t) == Some((c, k)) && Decode(t[k..]) == Some(tail)
    ensures Decode(t) == Some([c] + tail)
  {
  }

  /** Percent-decoding undoes encodeURIComponent: the receiver sees exactly the encoded string. */
  lemma {:induction false} DecodeEncode(s: string)
    ensures Decode(EncodeURIComponent(s)) == Some(s)
    decreases |s|
  {
    if s != [] {
      var t := EncodeURIComponent(s);
      var e := EncodeChar(s[0]);
      var rest := EncodeURIComponent(s[1..]);
      assert t == e + rest;
      DecodeOneEncodeChar(s[0], rest);
      assert t[|e|..] == rest;
      DecodeEncode(s[1..]);
      DecodeStep(t, s[0], |e|, s[1..]);
      assert [s[0]] + s[1..] == s;
    }
  }
}
