/** Percent-encoding of text (section 2.1 of RFC 3986) with UTF-8 octets, read two ways:
    the strict way of ECMAScript's `decodeURIComponent`, which throws on any malformed
    escape or ill-formed octet sequence, and the lenient way of Python's
    `urllib.parse.unquote`, which keeps malformed escapes as text and replaces each
    maximal ill-formed octet sequence by U+FFFD. Well-formed UTF-8 is the one of
    table 3-7 of the Unicode Standard. */
module PercentEncoding {
  import opened Wrappers

  predicate IsHexDigit(c: char)
  {
    '0' <= c <= '9' || 'a' <= c <= 'f' || 'A' <= c <= 'F'
  }

  function HexValue(c: char): (v: nat)
    requires IsHexDigit(c)
    ensures v < 16
  {
    if '0' <= c <= '9' then c as int - '0' as int
    else if 'a' <= c <= 'f' then c as int - 'a' as int + 10
    else c as int - 'A' as int + 10
  }

  /** The upper-case hexadecimal digit of `v`, as encoders write it. */
  function HexDigit(v: nat): (c: char)
    requires v < 16
    ensures IsHexDigit(c) && HexValue(c) == v
    ensures c != '%'
  {
    if v < 10 then ('0' as int + v) as char else ('A' as int + v - 10) as char
  }

  /** One unit of percent-encoded text: a character standing for itself, or an octet written `%HH`. */
  datatype Unit = Literal(c: char) | Escaped(octet: nat)

  /** `s` begins with a well-formed escape `%HH`. */
  predicate EscapeAt(s: string)
  {
    |s| >= 3 && s[0] == '%' && IsHexDigit(s[1]) && IsHexDigit(s[2])
  }

  function EscapedOctet(s: string): (b: nat)
    requires EscapeAt(s)
    ensures b < 256
  {
    16 * HexValue(s[1]) + HexValue(s[2])
  }

  /** Python's reading: a `%` that does not begin `%HH` is an ordinary character. */
  function LenientUnits(s: string): seq<Unit>
    decreases |s|
  {
    if s == [] then []
    else if EscapeAt(s) then [Escaped(EscapedOctet(s))] + LenientUnits(s[3..])
    else [Literal(s[0])] + LenientUnits(s[1..])
  }

  /** ECMAScript's reading: a `%` that does not begin `%HH` is an error. */
  function StrictUnits(s: string): Option<seq<Unit>>
    decreases |s|
  {
    if s == [] then Some([])
    else if EscapeAt(s) then
      match StrictUnits(s[3..])
      case Some(rest) => Some([Escaped(EscapedOctet(s))] + rest)
      case None => None
    else if s[0] == '%' then None
    else
      match StrictUnits(s[1..])
      case Some(rest) => Some([Literal(s[0])] + rest)
      case None => None
  }

  /** Where the strict reading succeeds, the lenient one reads the same units. */
  lemma {:induction false} StrictUnitsAgree(s: string)
    requires StrictUnits(s).Some?
    ensures LenientUnits(s) == StrictUnits(s).value
    decreases |s|
  {
    if s != [] {
      if EscapeAt(s) {
        StrictUnitsAgree(s[3..]);
      } else {
        StrictUnitsAgree(s[1..]);
      }
    }
  }

  /** Length of the well-formed UTF-8 sequence an octet begins; 0 when it begins none. */
  function SequenceLength(b: nat): nat
  {
    if b < 0x80 then 1
    else if 0xC2 <= b <= 0xDF then 2
    else if 0xE0 <= b <= 0xEF then 3
    else if 0xF0 <= b <= 0xF4 then 4
    else 0
  }

  /** Bounds of the second octet after a lead octet (table 3-7 of the Unicode Standard). */
  function SecondLow(lead: nat): nat
  {
    if lead == 0xE0 then 0xA0 else if lead == 0xF0 then 0x90 else 0x80
  }

  function SecondHigh(lead: nat): nat
  {
    if lead == 0xED then 0x9F else if lead == 0xF4 then 0x8F else 0xBF
  }

  predicate OctetAt(us: seq<Unit>, k: nat, lo: nat, hi: nat)
  {
    k < |us| && us[k].Escaped? && lo <= us[k].octet <= hi
  }

  /** How many units after the lead `us[0]` continue a sequence of `n` octets well-formedly:
      the length of the maximal well-formed prefix, less its lead. */
  function Continuations(us: seq<Unit>, n: nat): (m: nat)
    requires us != [] && us[0].Escaped? && 2 <= n <= 4
    ensures m <= n - 1 && m < |us|
    ensures forall k :: 1 <= k <= m ==> us[k].Escaped?
  {
    var lead := us[0].octet;
    if !OctetAt(us, 1, SecondLow(lead), SecondHigh(lead)) then 0
    else if n == 2 || !OctetAt(us, 2, 0x80, 0xBF) then 1
    else if n == 3 || !OctetAt(us, 3, 0x80, 0xBF) then 2
    else 3
  }

  /** `us` begins with a complete well-formed sequence of two to four octets. */
  predicate MultiOctetAt(us: seq<Unit>)
  {
    && us != [] && us[0].Escaped?
    && 2 <= SequenceLength(us[0].octet)
    && Continuations(us, SequenceLength(us[0].octet)) == SequenceLength(us[0].octet) - 1
  }

  /** The scalar value a complete well-formed sequence encodes. */
  function ScalarAt(us: seq<Unit>): (c: char)
    requires MultiOctetAt(us)
  {
    var n := SequenceLength(us[0].octet);
    var b0 := us[0].octet;
    var b1 := us[1].octet - 0x80;
    if n == 2 then
      ((b0 - 0xC0) * 64 + b1) as char
    else if n == 3 then
      ((b0 - 0xE0) * 4096 + b1 * 64 + (us[2].octet - 0x80)) as char
    else
      ((b0 - 0xF0) * 262144 + b1 * 4096 + (us[2].octet - 0x80) * 64 + (us[3].octet - 0x80)) as char
  }

  function Prepend(c: char, s: Option<string>): Option<string>
  {
    match s
    case Some(t) => Some([c] + t)
    case None => None
  }

  /** ECMAScript's decoding: every escaped octet sequence must be well-formed UTF-8. */
  function DecodeStrict(us: seq<Unit>): Option<string>
    decreases |us|
  {
    if us == [] then Some("")
    else match us[0]
      case Literal(c) => Prepend(c, DecodeStrict(us[1..]))
      case Escaped(b) =>
        if SequenceLength(b) == 1 then Prepend(b as char, DecodeStrict(us[1..]))
        else if MultiOctetAt(us) then Prepend(ScalarAt(us), DecodeStrict(us[SequenceLength(b)..]))
        else None
  }

  /** Python's decoding with `errors='replace'`: each maximal ill-formed octet sequence becomes U+FFFD. */
  function DecodeLenient(us: seq<Unit>): string
    decreases |us|
  {
    if us == [] then ""
    else match us[0]
      case Literal(c) => [c] + DecodeLenient(us[1..])
      case Escaped(b) =>
        if SequenceLength(b) == 1 then [b as char] + DecodeLenient(us[1..])
        else if MultiOctetAt(us) then [ScalarAt(us)] + DecodeLenient(us[SequenceLength(b)..])
        else if SequenceLength(b) == 0 then ['�'] + DecodeLenient(us[1..])
        else ['�'] + DecodeLenient(us[1 + Continuations(us, SequenceLength(b))..])
  }

  /** Where strict decoding succeeds, lenient decoding gives the same text. */
  lemma {:induction false} DecodeAgree(us: seq<Unit>)
    requires DecodeStrict(us).Some?
    ensures DecodeLenient(us) == DecodeStrict(us).value
    decreases |us|
  {
    if us != [] {
      match us[0]
      case Literal(c) => DecodeAgree(us[1..]);
      case Escaped(b) =>
        if SequenceLength(b) == 1 {
          DecodeAgree(us[1..]);
        } else {
          DecodeAgree(us[SequenceLength(b)..]);
        }
    }
  }

  /** ECMAScript's `decodeURIComponent`; `None` stands for the URIError it throws. */
  function DecodeUriComponent(s: string): Option<string>
  {
    match StrictUnits(s)
    case Some(us) => DecodeStrict(us)
    case None => None
  }

  /** Python's `urllib.parse.unquote(s)` with its default UTF-8 and `errors='replace'`. */
  function Unquote(s: string): string
  {
    DecodeLenient(LenientUnits(s))
  }

  /** Text without `%` decodes to itself, both ways. */
  lemma {:induction false} DecodeWithoutPercent(s: string)
    requires '%' !in s
    ensures Unquote(s) == s
    ensures DecodeUriComponent(s) == Some(s)
    decreases |s|
  {
    if s != [] {
      DecodeWithoutPercent(s[1..]);
      assert !EscapeAt(s);
      var rest := LenientUnits(s[1..]);
      assert LenientUnits(s) == [Literal(s[0])] + rest;
      assert ([Literal(s[0])] + rest)[1..] == rest;
      assert StrictUnits(s) == Some([Literal(s[0])] + StrictUnits(s[1..]).value);
    }
  }

  /** Text without `%` in front of the rest decodes to itself followed by the rest decoded. */
  lemma {:induction false} UnquotePlainPrefix(a: string, rest: string)
    requires '%' !in a
    ensures Unquote(a + rest) == a + Unquote(rest)
    decreases |a|
  {
    if a == [] {
      assert a + rest == rest;
    } else {
      var s := a + rest;
      assert s[0] == a[0] && s[1..] == a[1..] + rest;
      assert !EscapeAt(s);
      UnquotePlainPrefix(a[1..], rest);
      var us := LenientUnits(s[1..]);
      assert LenientUnits(s) == [Literal(a[0])] + us;
      assert ([Literal(a[0])] + us)[1..] == us;
      assert Unquote(s) == [a[0]] + Unquote(s[1..]);
      assert [a[0]] + a[1..] == a;
    }
  }

  /** An escape `%HH` of an octet below 0x80 decodes to that ASCII character. */
  lemma UnquoteAsciiEscape(e: string, rest: string)
    requires EscapeAt(e) && |e| == 3 && EscapedOctet(e) < 0x80
    ensures Unquote(e + rest) == [EscapedOctet(e) as char] + Unquote(rest)
  {
    var s := e + rest;
    assert s[..3] == e && s[3..] == rest;
    assert EscapeAt(s) && EscapedOctet(s) == EscapedOctet(e);
    var us := LenientUnits(rest);
    assert LenientUnits(s) == [Escaped(EscapedOctet(e))] + us;
    assert ([Escaped(EscapedOctet(e))] + us)[1..] == us;
  }

  /** Whenever `decodeURIComponent` succeeds, `unquote` yields the same text. */
  lemma UnquoteExtendsDecode(s: string)
    requires DecodeUriComponent(s).Some?
    ensures Unquote(s) == DecodeUriComponent(s).value
  {
    StrictUnitsAgree(s);
    DecodeAgree(StrictUnits(s).value);
  }
  /** The characters `encodeURIComponent` leaves as they are. */
  predicate IsUriUnreserved(c: char)
  {
    'A' <= c <= 'Z' || 'a' <= c <= 'z' || '0' <= c <= '9' || c in "-_.!~*'()"
  }

  /** The UTF-8 octets of a scalar value. */
  function Utf8(c: char): (bs: seq<nat>)
    ensures 1 <= |bs| <= 4
    ensures forall k :: 0 <= k < |bs| ==> bs[k] < 256
  {
    var v := c as int;
    if v < 0x80 then [v]
    else if v < 0x800 then [0xC0 + v / 64, 0x80 + v % 64]
    else if v < 0x10000 then [0xE0 + v / 4096, 0x80 + (v / 64) % 64, 0x80 + v % 64]
    else [0xF0 + v / 262144, 0x80 + (v / 4096) % 64, 0x80 + (v / 64) % 64, 0x80 + v % 64]
  }

  function EscapeOctets(bs: seq<nat>): string
    requires forall k :: 0 <= k < |bs| ==> bs[k] < 256
  {
    if bs == [] then ""
    else ['%', HexDigit(bs[0] / 16), HexDigit(bs[0] % 16)] + EscapeOctets(bs[1..])
  }

  function EscapedUnits(bs: seq<nat>): (us: seq<Unit>)
    ensures |us| == |bs|
    ensures forall k :: 0 <= k < |bs| ==> us[k] == Escaped(bs[k])
  {
    if bs == [] then [] else [Escaped(bs[0])] + EscapedUnits(bs[1..])
  }

  /** ECMAScript's `encodeURIComponent`: every character outside the unreserved set
      is written as the escapes of its UTF-8 octets. */
  function EncodeUriComponent(s: string): string
  {
    if s == [] then ""
    else (if IsUriUnreserved(s[0]) then [s[0]] else EscapeOctets(Utf8(s[0]))) + EncodeUriComponent(s[1..])
  }

  /** The units an encoded character reads as. */
  function CharUnits(c: char): seq<Unit>
  {
    if IsUriUnreserved(c) then [Literal(c)] else EscapedUnits(Utf8(c))
  }

  function EncodedUnits(s: string): seq<Unit>
  {
    if s == [] then [] else CharUnits(s[0]) + EncodedUnits(s[1..])
  }

  lemma {:induction false} StrictUnitsOfEscapes(bs: seq<nat>, rest: string)
    requires forall k :: 0 <= k < |bs| ==> bs[k] < 256
    requires StrictUnits(rest).Some?
    ensures StrictUnits(EscapeOctets(bs) + rest) == Some(EscapedUnits(bs) + StrictUnits(rest).value)
  {
    if bs != [] {
      var s := EscapeOctets(bs) + rest;
      assert s == ['%', HexDigit(bs[0] / 16), HexDigit(bs[0] % 16)] + (EscapeOctets(bs[1..]) + rest);
      assert EscapeAt(s) && EscapedOctet(s) == bs[0];
      assert s[3..] == EscapeOctets(bs[1..]) + rest;
      StrictUnitsOfEscapes(bs[1..], rest);
      var tail := EscapedUnits(bs[1..]) + StrictUnits(rest).value;
      assert StrictUnits(s) == Some([Escaped(bs[0])] + tail);
      assert EscapedUnits(bs) == [Escaped(bs[0])] + EscapedUnits(bs[1..]);
      assert [Escaped(bs[0])] + tail == EscapedUnits(bs) + StrictUnits(rest).value;
    } else {
      assert EscapeOctets(bs) + rest == rest;
      assert EscapedUnits(bs) + StrictUnits(rest).value == StrictUnits(rest).value;
      assert StrictUnits(rest) == Some(StrictUnits(rest).value);
    }
  }

  /** Encoded text reads back as the units of its characters. */
  lemma {:induction false} StrictUnitsOfEncoded(s: string)
    ensures StrictUnits(EncodeUriComponent(s)) == Some(EncodedUnits(s))
  {
    if s != [] {
      StrictUnitsOfEncoded(s[1..]);
      var tail := EncodeUriComponent(s[1..]);
      if IsUriUnreserved(s[0]) {
        var e := [s[0]] + tail;
        assert !EscapeAt(e) && e[0] != '%' && e[1..] == tail;
      } else {
        StrictUnitsOfEscapes(Utf8(s[0]), tail);
      }
    }
  }

  /** Decoding the units of one encoded character yields that character. */
  lemma DecodeCharUnits(c: char, rest: seq<Unit>)
    ensures DecodeStrict(CharUnits(c) + rest) == Prepend(c, DecodeStrict(rest))
  {
    var us := CharUnits(c) + rest;
    var v := c as int;
    if IsUriUnreserved(c) || v < 0x80 {
      assert us[1..] == rest;
    } else if v < 0x800 {
      DecodeTwoOctets(c, rest);
    } else if v < 0x10000 {
      DecodeThreeOctets(c, rest);
    } else {
      DecodeFourOctets(c, rest);
    }
  }

  lemma DecodeTwoOctets(c: char, rest: seq<Unit>)
    requires !IsUriUnreserved(c) && 0x80 <= c as int < 0x800
    ensures DecodeStrict(CharUnits(c) + rest) == Prepend(c, DecodeStrict(rest))
  {
    var us := CharUnits(c) + rest;
    var v := c as int;
    assert us[0] == Escaped(0xC0 + v / 64) && us[1] == Escaped(0x80 + v % 64);
    assert MultiOctetAt(us);
    assert ScalarAt(us) == c;
    assert us[2..] == rest;
  }

  lemma DecodeThreeOctets(c: char, rest: seq<Unit>)
    requires !IsUriUnreserved(c) && 0x800 <= c as int < 0x10000
    ensures DecodeStrict(CharUnits(c) + rest) == Prepend(c, DecodeStrict(rest))
  {
    var us := CharUnits(c) + rest;
    var v := c as int;
    var q := v / 64;
    assert v == 64 * q + v % 64;
    assert q / 64 == v / 4096;
    assert q == 64 * (v / 4096) + q % 64;
    assert us[0] == Escaped(0xE0 + v / 4096) && us[1] == Escaped(0x80 + q % 64) && us[2] == Escaped(0x80 + v % 64);
    assert MultiOctetAt(us);
    assert ScalarAt(us) == c;
    assert us[3..] == rest;
  }

  lemma DecodeFourOctets(c: char, rest: seq<Unit>)
    requires !IsUriUnreserved(c) && 0x10000 <= c as int
    ensures DecodeStrict(CharUnits(c) + rest) == Prepend(c, DecodeStrict(rest))
  {
    var us := CharUnits(c) + rest;
    var v := c as int;
    var q := v / 64;
    var p := q / 64;
    assert v == 64 * q + v % 64;
    assert q == 64 * p + q % 64;
    assert p == v / 4096;
    assert p / 64 == v / 262144;
    assert p == 64 * (v / 262144) + p % 64;
    assert us[0] == Escaped(0xF0 + v / 262144) && us[1] == Escaped(0x80 + p % 64);
    assert us[2] == Escaped(0x80 + q % 64) && us[3] == Escaped(0x80 + v % 64);
    assert MultiOctetAt(us);
    assert ScalarAt(us) == c;
    assert us[4..] == rest;
  }

  lemma {:induction false} DecodeEncodedUnits(s: string)
    ensures DecodeStrict(EncodedUnits(s)) == Some(s)
  {
    if s != [] {
      DecodeEncodedUnits(s[1..]);
      DecodeCharUnits(s[0], EncodedUnits(s[1..]));
      assert [s[0]] + s[1..] == s;
    }
  }

  /** `decodeURIComponent(encodeURIComponent(s)) === s`. */
  lemma DecodeEncodeRoundTrip(s: string)
    ensures DecodeUriComponent(EncodeUriComponent(s)) == Some(s)
  {
    StrictUnitsOfEncoded(s);
    DecodeEncodedUnits(s);
  }

  /** Python's `unquote` inverts the same encoding. */
  lemma UnquoteEncodeRoundTrip(s: string)
    ensures Unquote(EncodeUriComponent(s)) == s
  {
    DecodeEncodeRoundTrip(s);
    UnquoteExtendsDecode(EncodeUriComponent(s));
  }

  /** The characters encoded text is made of: unreserved ones, `%` and hexadecimal digits. */
  predicate IsEncodedChar(c: char)
  {
    IsUriUnreserved(c) || c == '%' || IsHexDigit(c)
  }

  lemma {:induction false} EscapeOctetsAlphabet(bs: seq<nat>)
    requires forall k :: 0 <= k < |bs| ==> bs[k] < 256
    ensures forall k :: 0 <= k < |EscapeOctets(bs)| ==> IsEncodedChar(EscapeOctets(bs)[k])
  {
    if bs != [] {
      EscapeOctetsAlphabet(bs[1..]);
      var head := ['%', HexDigit(bs[0] / 16), HexDigit(bs[0] % 16)];
      var tail := EscapeOctets(bs[1..]);
      forall k | 0 <= k < |head + tail|
        ensures IsEncodedChar((head + tail)[k])
      {
        if k >= 3 { assert (head + tail)[k] == tail[k - 3]; }
      }
    }
  }

  /** `encodeURIComponent` writes nothing but unreserved characters and escapes. */
  lemma {:induction false} EncodedAlphabet(s: string)
    ensures forall k :: 0 <= k < |EncodeUriComponent(s)| ==> IsEncodedChar(EncodeUriComponent(s)[k])
  {
    if s != [] {
      EncodedAlphabet(s[1..]);
      var head := if IsUriUnreserved(s[0]) then [s[0]] else EscapeOctets(Utf8(s[0]));
      var tail := EncodeUriComponent(s[1..]);
      if !IsUriUnreserved(s[0]) { EscapeOctetsAlphabet(Utf8(s[0])); }
      forall k | 0 <= k < |head + tail|
        ensures IsEncodedChar((head + tail)[k])
      {
        if k >= |head| { assert (head + tail)[k] == tail[k - |head|]; }
        else { assert (head + tail)[k] == head[k]; }
      }
    }
  }
}
