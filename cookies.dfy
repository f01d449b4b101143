/** The `getCookie` helper both infinite-scroll pages carry: the value of one cookie of
    `document.cookie`, found by splitting at `;`, trimming every piece the way
    ECMAScript's `String.prototype.trim` does and taking the first piece that begins
    `name=`, its rest read by `decodeURIComponent`. */
module Cookies {
  import opened Wrappers
  import Strings
  import PercentEncoding

  const PairSeparator := ';'
  const ValueMark := "="

  /** The characters `trim` removes: ECMAScript's WhiteSpace and LineTerminator (tab,
      line feed, vertical tab, form feed, carriage return, the space separators of
      Unicode category Zs, the byte order mark and the line and paragraph separators). */
  predicate IsJsSpace(c: char)
  {
    || c == '\t' || c == '\n' || c == '\U{000B}' || c == '\U{000C}' || c == '\r'
    || c == ' ' || c == '\U{00A0}' || c == '\U{1680}' || ('\U{2000}' <= c <= '\U{200A}')
    || c == '\U{2028}' || c == '\U{2029}' || c == '\U{202F}' || c == '\U{205F}'
    || c == '\U{3000}' || c == '\U{FEFF}'
  }

  /** How many characters at the front of `s` are spaces. */
  function LeadingSpaces(s: string): (n: nat)
    ensures n <= |s|
    ensures forall k :: 0 <= k < n ==> IsJsSpace(s[k])
    ensures n < |s| ==> !IsJsSpace(s[n])
  {
    if s != [] && IsJsSpace(s[0]) then
      var m := LeadingSpaces(s[1..]);
      assert forall k :: 1 <= k < m + 1 ==> s[k] == s[1..][k - 1];
      1 + m
    else 0
  }

  /** How many characters at the back of `s` are spaces. */
  function TrailingSpaces(s: string): (n: nat)
    ensures n <= |s|
    ensures forall k :: |s| - n <= k < |s| ==> IsJsSpace(s[k])
    ensures n < |s| ==> !IsJsSpace(s[|s| - 1 - n])
  {
    if s != [] && IsJsSpace(s[|s| - 1]) then
      var m := TrailingSpaces(s[..|s| - 1]);
      assert forall k :: 0 <= k < |s| - 1 ==> s[k] == s[..|s| - 1][k];
      1 + m
    else 0
  }

  /** `s.trim()`. */
  function Trim(s: string): (t: string)
    ensures |t| <= |s|
    ensures t != [] ==> !IsJsSpace(t[0]) && !IsJsSpace(t[|t| - 1])
    ensures t == [] <==> forall k :: 0 <= k < |s| ==> IsJsSpace(s[k])
  {
    var lead := LeadingSpaces(s);
    var rest := s[lead..];
    var trail := TrailingSpaces(rest);
    if trail < |rest| then
      assert rest[0] == s[lead];
      rest[..|rest| - trail]
    else
      []
  }

  lemma {:induction false} LeadingOf(pad: string, s: string)
    requires forall k :: 0 <= k < |pad| ==> IsJsSpace(pad[k])
    requires s == [] || !IsJsSpace(s[0])
    ensures LeadingSpaces(pad + s) == |pad|
    decreases |pad|
  {
    if pad != [] {
      assert (pad + s)[1..] == pad[1..] + s;
      LeadingOf(pad[1..], s);
    }
  }

  lemma {:induction false} TrailingOf(s: string, pad: string)
    requires forall k :: 0 <= k < |pad| ==> IsJsSpace(pad[k])
    requires s == [] || !IsJsSpace(s[|s| - 1])
    ensures TrailingSpaces(s + pad) == |pad|
    decreases |pad|
  {
    if pad != [] {
      var t := s + pad;
      assert t[|t| - 1] == pad[|pad| - 1];
      assert t[..|t| - 1] == s + pad[..|pad| - 1];
      TrailingOf(s, pad[..|pad| - 1]);
    } else {
      assert s + pad == s;
    }
  }

  /** `trim` removes exactly the spaces around a piece that neither begins nor ends with
      one, whatever spaces surround it. */
  lemma TrimStrips(before: string, s: string, after: string)
    requires forall k :: 0 <= k < |before| ==> IsJsSpace(before[k])
    requires forall k :: 0 <= k < |after| ==> IsJsSpace(after[k])
    requires s != [] && !IsJsSpace(s[0]) && !IsJsSpace(s[|s| - 1])
    ensures Trim(before + s + after) == s
  {
    var whole := before + s + after;
    assert whole == before + (s + after);
    LeadingOf(before, s + after);
    assert whole[|before|..] == s + after;
    TrailingOf(s, after);
    assert (s + after)[..|s|] == s;
  }

  /** A piece already without surrounding spaces is its own trim. */
  lemma TrimTrimmed(s: string)
    requires s == [] || (!IsJsSpace(s[0]) && !IsJsSpace(s[|s| - 1]))
    ensures Trim(s) == s
  {
    if s != [] {
      TrimStrips([], s, []);
      assert [] + s + [] == s;
    }
  }

  /** ECMAScript's `s.substring(start, end)`: both ends clamped to the string, swapped
      when the start lies after the end. */
  function Substring(s: string, start: int, end: int): (r: string)
    ensures |r| <= |s|
  {
    var a := if start < 0 then 0 else if start > |s| then |s| else start;
    var b := if end < 0 then 0 else if end > |s| then |s| else end;
    if a <= b then s[a..b] else s[b..a]
  }

  /** The test `cookie.substring(0, name.length + 1) === name + '='` is "begins with `name=`". */
  lemma SubstringTest(cookie: string, name: string)
    ensures Substring(cookie, 0, |name| + 1) == name + ValueMark <==> Strings.StartsWith(cookie, name + ValueMark)
  {
  }

  /** The piece `piece` of `document.cookie` is the cookie `name`. */
  predicate Matches(piece: string, name: string)
  {
    Strings.StartsWith(Trim(piece), name + ValueMark)
  }

  /** What `getCookie` returns for a matching piece: its value read by
      `decodeURIComponent`, whose URIError propagates. */
  function ValueOf(piece: string, name: string): (r: Result<Option<string>>)
    requires Matches(piece, name)
    ensures r.Err? <==> PercentEncoding.DecodeUriComponent(Trim(piece)[|name| + 1..]).None?
    ensures r.Err? ==> r.error == UriError
    ensures r.Ok? ==> r.value == PercentEncoding.DecodeUriComponent(Trim(piece)[|name| + 1..])
  {
    var cookie := Trim(piece);
    match PercentEncoding.DecodeUriComponent(cookie[|name| + 1..])
    case None => Err(UriError)
    case Some(v) => Ok(Some(v))
  }

  /** The lookup over the pieces: the first piece that is the cookie decides. */
  function Lookup(pieces: seq<string>, name: string): Result<Option<string>>
  {
    if pieces == [] then Ok(None)
    else if Matches(pieces[0], name) then ValueOf(pieces[0], name)
    else Lookup(pieces[1..], name)
  }

  /** `getCookie(name)` against the text of `document.cookie`: nothing when that is empty. */
  function CookieValue(cookie: string, name: string): Result<Option<string>>
  {
    if cookie == "" then Ok(None) else Lookup(Strings.Split(cookie, PairSeparator), name)
  }

  /** `getCookie(name)`: the loop over the pieces, leaving at the first match. */
  method GetCookie(cookie: string, name: string) returns (r: Result<Option<string>>)
    ensures r == CookieValue(cookie, name)
  {
    var cookieValue: Option<string> := None;
    if cookie != "" {
      var cookies := Strings.Split(cookie, PairSeparator);
      var i := 0;
      while i < |cookies|
        invariant 0 <= i <= |cookies|
        invariant CookieValue(cookie, name) == Lookup(cookies[i..], name)
      {
        var piece := Trim(cookies[i]);
        assert cookies[i..][1..] == cookies[i + 1..];
        assert Lookup(cookies[i..], name)
          == if Matches(cookies[i], name) then ValueOf(cookies[i], name) else Lookup(cookies[i + 1..], name);
        if Substring(piece, 0, |name| + 1) == name + ValueMark {
          SubstringTest(piece, name);
          var decoded := PercentEncoding.DecodeUriComponent(piece[|name| + 1..]);
          if decoded.None? {
            return Err(UriError);
          }
          cookieValue := decoded;
          break;
        }
        SubstringTest(piece, name);
        i := i + 1;
      }
    }
    return Ok(cookieValue);
  }

  /** The lookup's meaning: nothing exactly when no piece is the cookie, otherwise the
      value of the first piece that is, or the URIError reading it. */
  lemma {:induction false} LookupMeaning(pieces: seq<string>, name: string)
    ensures Lookup(pieces, name) == Ok(None) <==> forall i :: 0 <= i < |pieces| ==> !Matches(pieces[i], name)
    ensures forall j ::
              (0 <= j < |pieces| && Matches(pieces[j], name) && (forall i :: 0 <= i < j ==> !Matches(pieces[i], name)))
              ==> Lookup(pieces, name) == ValueOf(pieces[j], name)
    ensures Lookup(pieces, name).Err? ==> Lookup(pieces, name).error == UriError
    decreases |pieces|
  {
    if pieces != [] {
      LookupMeaning(pieces[1..], name);
      assert forall i :: 1 <= i < |pieces| ==> pieces[i] == pieces[1..][i - 1];
      if !Matches(pieces[0], name) {
        forall j | 1 <= j < |pieces| && Matches(pieces[j], name) && (forall i :: 0 <= i < j ==> !Matches(pieces[i], name))
          ensures Lookup(pieces, name) == ValueOf(pieces[j], name)
        {
          assert pieces[1..][j - 1] == pieces[j];
          assert forall i :: 0 <= i < j - 1 ==> !Matches(pieces[1..][i], name) by {
            forall i | 0 <= i < j - 1 ensures !Matches(pieces[1..][i], name) {
              assert pieces[1..][i] == pieces[i + 1];
            }
          }
        }
        if Lookup(pieces, name) == Ok(None) {
          forall i | 0 <= i < |pieces| ensures !Matches(pieces[i], name) {
            if i > 0 { assert pieces[i] == pieces[1..][i - 1]; }
          }
        }
      }
    }
  }

  /** The pair `name=value` with the value encoded is its own trim, is the cookie `name`
      and reads back as `value`. */
  lemma EncodedPair(name: string, value: string)
    requires name != [] && !IsJsSpace(name[0]) && PairSeparator !in name
    ensures var pair := name + ValueMark + PercentEncoding.EncodeUriComponent(value);
      && PairSeparator !in pair && Trim(pair) == pair && Matches(pair, name) && ValueOf(pair, name) == Ok(Some(value))
  {
    var enc := PercentEncoding.EncodeUriComponent(value);
    var pair := name + ValueMark + enc;
    PercentEncoding.EncodedAlphabet(value);
    PairAlphabet(name, enc);
    assert pair[0] == name[0];
    TrimTrimmed(pair);
    assert pair[..|name + ValueMark|] == name + ValueMark;
    assert pair[|name| + 1..] == enc;
    PercentEncoding.DecodeEncodeRoundTrip(value);
  }

  /** A value `encodeURIComponent` wrote comes back: the cookie `name=value` alone. */
  lemma CookieRoundTrip(name: string, value: string)
    requires name != [] && !IsJsSpace(name[0]) && PairSeparator !in name
    ensures CookieValue(name + ValueMark + PercentEncoding.EncodeUriComponent(value), name) == Ok(Some(value))
  {
    var pair := name + ValueMark + PercentEncoding.EncodeUriComponent(value);
    EncodedPair(name, value);
    Strings.SplitWhole(pair, PairSeparator);
    assert Lookup([pair], name) == ValueOf(pair, name);
  }

  /** A value with a lone `%` makes `decodeURIComponent` throw. */
  lemma MalformedValue(name: string)
    requires name != [] && !IsJsSpace(name[0]) && PairSeparator !in name
    ensures CookieValue(name + ValueMark + "%", name) == Err(UriError)
  {
    var pair := name + ValueMark + "%";
    PairAlphabet(name, "%");
    assert pair[0] == name[0];
    TrimTrimmed(pair);
    assert pair[..|name + ValueMark|] == name + ValueMark;
    assert pair[|name| + 1..] == "%";
    assert PercentEncoding.DecodeUriComponent("%") == None;
    Strings.SplitWhole(pair, PairSeparator);
    assert Lookup([pair], name) == ValueOf(pair, name);
  }

  /** ... and behind another cookie, written `other; name=value` as browsers do. */
  lemma CookieBehindAnother(other: string, name: string, value: string)
    requires name != [] && !IsJsSpace(name[0]) && PairSeparator !in name
    requires PairSeparator !in other && !Matches(other, name)
    ensures CookieValue(other + "; " + name + ValueMark + PercentEncoding.EncodeUriComponent(value), name)
      == Ok(Some(value))
  {
    var enc := PercentEncoding.EncodeUriComponent(value);
    var pair := name + ValueMark + enc;
    assert other + "; " + name + ValueMark + enc == other + "; " + pair;
    EncodedPair(name, value);
    LookupBehind(other, pair, name);
  }

  /** The cookie `other; pair`, for a trimmed `pair` that is the cookie `name`. */
  lemma LookupBehind(other: string, pair: string, name: string)
    requires PairSeparator !in other && PairSeparator !in pair
    requires !Matches(other, name) && Matches(pair, name) && Trim(pair) == pair
    ensures CookieValue(other + "; " + pair, name) == ValueOf(pair, name)
  {
    SplitBehind(other, pair);
    TrimStrips(" ", pair, []);
    assert " " + pair + [] == " " + pair;
    SameTrim(" " + pair, pair, name);
    LookupSecond(other, " " + pair, name);
    assert other + "; " + pair != "";
  }

  /** Two pieces with the same trim read alike. */
  lemma SameTrim(p: string, q: string, name: string)
    requires Trim(p) == Trim(q) && Matches(q, name)
    ensures Matches(p, name) && ValueOf(p, name) == ValueOf(q, name)
  {
  }

  lemma LookupSecond(a: string, b: string, name: string)
    requires !Matches(a, name) && Matches(b, name)
    ensures Lookup([a, b], name) == ValueOf(b, name)
  {
    assert [a, b][1..] == [b];
  }

  /** The pieces of `other; pair`. */
  lemma SplitBehind(other: string, pair: string)
    requires PairSeparator !in other && PairSeparator !in pair
    ensures Strings.Split(other + "; " + pair, PairSeparator) == [other, " " + pair]
  {
    var spaced := " " + pair;
    assert other + "; " + pair == other + [PairSeparator] + spaced;
    SplitAfter(other, spaced);
    assert PairSeparator !in spaced by {
      assert forall k :: 1 <= k < |spaced| ==> spaced[k] == pair[k - 1];
    }
    Strings.SplitWhole(spaced, PairSeparator);
  }

  /** A cookie pair whose value is encoded has no separator and ends in no space. */
  lemma PairAlphabet(name: string, enc: string)
    requires forall k :: 0 <= k < |enc| ==> PercentEncoding.IsEncodedChar(enc[k])
    requires PairSeparator !in name
    ensures PairSeparator !in name + ValueMark + enc
    ensures !IsJsSpace((name + ValueMark + enc)[|name + ValueMark + enc| - 1])
  {
    var pair := name + ValueMark + enc;
    forall k | 0 <= k < |pair| ensures pair[k] != PairSeparator {
      if k >= |name| + 1 { assert pair[k] == enc[k - |name| - 1]; }
      else if k < |name| { assert pair[k] == name[k]; }
    }
    if enc != [] { assert pair[|pair| - 1] == enc[|enc| - 1]; }
  }

  /** Splitting `a;b` when `a` has no separator. */
  lemma SplitAfter(a: string, b: string)
    requires PairSeparator !in a
    ensures Strings.Split(a + [PairSeparator] + b, PairSeparator) == [a] + Strings.Split(b, PairSeparator)
  {
    var s := a + [PairSeparator] + b;
    Strings.IndexOfFirst(s, PairSeparator);
    assert s[|a|] == PairSeparator;
    Strings.SplitFirst(s, PairSeparator);
    var i := Strings.IndexOf(s, PairSeparator);
    assert forall k :: 0 <= k < |a| ==> s[k] == a[k];
    assert i == |a|;
    assert s[..i] == a && s[i + 1..] == b;
  }
}
