/** String operations shared by the Python and the JavaScript parts. */
module Strings {

  /** Index of the first `d` in `s`, or `|s|` when `s` has none. */
  function IndexOf(s: string, d: char): (i: nat)
    ensures i <= |s|
    ensures i < |s| ==> s[i] == d
  {
    if s == [] then 0
    else if s[0] == d then 0
    else 1 + IndexOf(s[1..], d)
  }

  /** No `d` comes before `IndexOf(s, d)`. */
  lemma {:induction false} IndexOfFirst(s: string, d: char)
    ensures forall k :: 0 <= k < IndexOf(s, d) ==> s[k] != d
    decreases |s|
  {
    if s != [] && s[0] != d {
      IndexOfFirst(s[1..], d);
      forall k | 0 <= k < IndexOf(s, d)
        ensures s[k] != d
      {
        if k > 0 { assert s[k] == s[1..][k - 1]; }
      }
    }
  }

  /** `IndexOf(s, d)` is `|s|` exactly when `s` has no `d`. */
  lemma {:induction false} IndexOfFound(s: string, d: char)
    ensures IndexOf(s, d) < |s| <==> d in s
    decreases |s|
  {
    if s != [] && s[0] != d {
      IndexOfFound(s[1..], d);
      assert s == [s[0]] + s[1..];
    }
  }

  /** `s.split(d)` for a one-character separator, in Python and in JavaScript alike:
      the pieces between the separators, empty pieces included. */
  function Split(s: string, d: char): (parts: seq<string>)
    ensures |parts| >= 1
    decreases |s|
  {
    var i := IndexOf(s, d);
    if i == |s| then [s] else [s[..i]] + Split(s[i + 1..], d)
  }

  /** A string without the separator is a single piece. */
  lemma SplitWhole(s: string, d: char)
    requires d !in s
    ensures Split(s, d) == [s]
  {
    IndexOfFound(s, d);
  }

  /** Splitting at the first separator. */
  lemma SplitFirst(s: string, d: char)
    requires d in s
    ensures IndexOf(s, d) < |s|
    ensures Split(s, d) == [s[..IndexOf(s, d)]] + Split(s[IndexOf(s, d) + 1..], d)
  {
    IndexOfFound(s, d);
  }

  /** No piece contains the separator. */
  lemma {:induction false} SplitPieces(s: string, d: char)
    ensures forall k :: 0 <= k < |Split(s, d)| ==> d !in Split(s, d)[k]
    decreases |s|
  {
    if d in s {
      SplitFirst(s, d);
      IndexOfFirst(s, d);
      var i := IndexOf(s, d);
      SplitPieces(s[i + 1..], d);
      var parts := Split(s, d);
      var rest := Split(s[i + 1..], d);
      assert parts == [s[..i]] + rest;
      forall k | 0 <= k < |parts|
        ensures d !in parts[k]
      {
        if k > 0 { assert parts[k] == rest[k - 1]; }
      }
    } else {
      SplitWhole(s, d);
    }
  }

  /** `sep.join(parts)`. */
  function Join(parts: seq<string>, sep: string): string
  {
    if parts == [] then ""
    else if |parts| == 1 then parts[0]
    else parts[0] + sep + Join(parts[1..], sep)
  }

  /** Joining a first piece to the rest puts the separator between them. */
  lemma JoinCons(first: string, rest: seq<string>, sep: string)
    requires rest != []
    ensures Join([first] + rest, sep) == first + sep + Join(rest, sep)
  {
    assert ([first] + rest)[1..] == rest;
  }

  /** Joining the pieces back with the separator gives the string that was split. */
  lemma {:induction false} JoinSplit(s: string, d: char)
    ensures Join(Split(s, d), [d]) == s
    decreases |s|
  {
    if d in s {
      SplitFirst(s, d);
      var i := IndexOf(s, d);
      var head, tail := s[..i], s[i + 1..];
      var rest := Split(tail, d);
      JoinSplit(tail, d);
      assert Join(rest, [d]) == tail;
      JoinCons(head, rest, [d]);
      assert Join(Split(s, d), [d]) == head + [d] + tail;
      assert s == head + [d] + tail;
    } else {
      SplitWhole(s, d);
    }
  }

  /** A join of non-empty pieces is empty only when there are no pieces. */
  lemma {:induction false} JoinNonEmpty(parts: seq<string>, sep: string)
    requires parts != []
    requires forall k :: 0 <= k < |parts| ==> parts[k] != ""
    ensures Join(parts, sep) != ""
  {
    assert |Join(parts, sep)| >= |parts[0]|;
  }

  /** The text after the last `d` in `s` (all of `s` when it has none). */
  function LastPiece(s: string, d: char): string
    decreases |s|
  {
    var i := IndexOf(s, d);
    if i == |s| then s else LastPiece(s[i + 1..], d)
  }

  /** The last piece after the first separator is the last piece of what follows it. */
  lemma LastPieceFirst(s: string, d: char)
    requires d in s
    ensures IndexOf(s, d) < |s|
    ensures LastPiece(s, d) == LastPiece(s[IndexOf(s, d) + 1..], d)
  {
    IndexOfFound(s, d);
  }

  /** Putting a piece in front keeps the last piece. */
  lemma LastOfCons(first: string, rest: seq<string>)
    requires rest != []
    ensures var parts := [first] + rest; parts[|parts| - 1] == rest[|rest| - 1]
  {
  }

  /** `LastPiece(s, d)` is `s.split(d)[-1]`. */
  lemma {:induction false} LastPieceOfSplit(s: string, d: char)
    ensures var parts := Split(s, d); LastPiece(s, d) == parts[|parts| - 1]
    decreases |s|
  {
    if d in s {
      SplitFirst(s, d);
      var i := IndexOf(s, d);
      LastPieceOfSplit(s[i + 1..], d);
      LastOfCons(s[..i], Split(s[i + 1..], d));
    } else {
      SplitWhole(s, d);
      IndexOfFound(s, d);
    }
  }

  /** The last piece holds no separator and ends `s`. */
  lemma {:induction false} LastPieceIsSuffix(s: string, d: char)
    ensures d !in LastPiece(s, d)
    ensures |LastPiece(s, d)| <= |s|
    ensures s[|s| - |LastPiece(s, d)|..] == LastPiece(s, d)
    decreases |s|
  {
    IndexOfFound(s, d);
    if d in s {
      var i := IndexOf(s, d);
      var tail := s[i + 1..];
      LastPieceIsSuffix(tail, d);
      var r := LastPiece(tail, d);
      assert LastPiece(s, d) == r;
      assert s[|s| - |r|..] == tail[|tail| - |r|..];
    }
  }

  /** The last piece is all of `s`, or a separator comes right before it. */
  lemma {:induction false} LastPieceBoundary(s: string, d: char)
    ensures |LastPiece(s, d)| < |s| ==> s[|s| - |LastPiece(s, d)| - 1] == d
    decreases |s|
  {
    IndexOfFound(s, d);
    if d in s {
      var i := IndexOf(s, d);
      var tail := s[i + 1..];
      LastPieceBoundary(tail, d);
      LastPieceIsSuffix(tail, d);
      var r := LastPiece(tail, d);
      assert LastPiece(s, d) == r;
      if |r| < |tail| {
        assert s[|s| - |r| - 1] == tail[|tail| - |r| - 1];
      } else {
        assert |s| - |r| - 1 == i;
      }
    }
  }

  /** Text put in front of the last separator leaves the last piece unchanged. */
  lemma {:induction false} LastPieceAfterSeparator(prefix: string, d: char, rest: string)
    requires d !in rest
    ensures LastPiece(prefix + [d] + rest, d) == rest
    decreases |prefix|
  {
    var s := prefix + [d] + rest;
    assert s[|prefix|] == d;
    LastPieceFirst(s, d);
    IndexOfFirst(s, d);
    var i := IndexOf(s, d);
    assert i <= |prefix|;
    if i < |prefix| {
      assert s[i + 1..] == prefix[i + 1..] + [d] + rest;
      LastPieceAfterSeparator(prefix[i + 1..], d, rest);
    } else {
      assert s[i + 1..] == rest;
      IndexOfFound(rest, d);
    }
  }

  /** `s` begins with `p`. */
  predicate StartsWith(s: string, p: string)
  {
    |p| <= |s| && s[..|p|] == p
  }

  /** Python's `p in s`: `p` occurs somewhere in `s`. */
  predicate Contains(s: string, p: string)
    decreases |s|
  {
    StartsWith(s, p) || (s != [] && Contains(s[1..], p))
  }

  /** Python's `s.replace(c, rep)` for a one-character `c`. */
  function ReplaceChar(s: string, c: char, rep: string): (r: string)
    ensures c !in rep ==> c !in r
    ensures c !in s ==> r == s
  {
    if s == [] then ""
    else (if s[0] == c then rep else [s[0]]) + ReplaceChar(s[1..], c, rep)
  }

  /** Python's `s.replace(p, '')`: every occurrence of `p`, found left to right
      without overlap, is removed. */
  function RemoveAll(s: string, p: string): (r: string)
    requires p != ""
    ensures |r| <= |s|
    decreases |s|
  {
    if |s| < |p| then s
    else if s[..|p|] == p then RemoveAll(s[|p|..], p)
    else [s[0]] + RemoveAll(s[1..], p)
  }

  /** Removing a pattern that does not occur changes nothing. */
  lemma {:induction false} RemoveAbsent(s: string, p: string)
    requires p != ""
    requires !Contains(s, p)
    ensures RemoveAll(s, p) == s
    decreases |s|
  {
    if |s| >= |p| {
      RemoveAbsent(s[1..], p);
    }
  }

  /** `replace` works piece by piece. */
  lemma {:induction false} ReplaceCharConcat(a: string, b: string, c: char, rep: string)
    ensures ReplaceChar(a + b, c, rep) == ReplaceChar(a, c, rep) + ReplaceChar(b, c, rep)
    decreases |a|
  {
    if a == [] {
      assert a + b == b;
    } else {
      assert (a + b)[0] == a[0];
      assert (a + b)[1..] == a[1..] + b;
      ReplaceCharConcat(a[1..], b, c, rep);
    }
  }

  /** Every text ends with its own suffix. */
  lemma {:induction false} ContainsSuffix(a: string, b: string)
    ensures Contains(a + b, b)
    decreases |a|
  {
    if a == [] {
      assert (a + b)[..|b|] == b;
    } else {
      assert (a + b)[1..] == a[1..] + b;
      ContainsSuffix(a[1..], b);
    }
  }

  /** When the pattern begins with a character the text lacks, removing it from the text
      followed by one copy of it leaves the text. */
  lemma {:induction false} RemoveAllTrailing(s: string, p: string)
    requires p != "" && p[0] !in s
    ensures RemoveAll(s + p, p) == s
    decreases |s|
  {
    if s == [] {
      assert (s + p)[..|p|] == p;
      assert (s + p)[|p|..] == [];
    } else {
      assert (s + p)[..|p|][0] == s[0];
      assert (s + p)[1..] == s[1..] + p;
      RemoveAllTrailing(s[1..], p);
    }
  }
}
