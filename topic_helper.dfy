/** `metrics/utils/topic_helper.py`: the `topicCategories` URLs of a `topicDetails` object
    (Wikipedia article URLs) turned into display labels. Python's `str.lower` and
    `str.title` are modelled on ASCII letters; every other character is uncased. */
module TopicHelper {
  import opened Wrappers
  import opened Strings
  import PercentEncoding
  import opened Api

  predicate IsUpper(c: char) { 'A' <= c <= 'Z' }
  predicate IsLower(c: char) { 'a' <= c <= 'z' }
  predicate IsCased(c: char) { IsUpper(c) || IsLower(c) }

  function ToLower(c: char): (r: char)
    ensures IsCased(r) <==> IsCased(c)
    ensures !IsUpper(r)
    ensures !IsCased(c) ==> r == c
  {
    if IsUpper(c) then (c as int + 32) as char else c
  }

  function ToUpper(c: char): (r: char)
    ensures IsCased(r) <==> IsCased(c)
    ensures !IsLower(r)
    ensures !IsCased(c) ==> r == c
  {
    if IsLower(c) then (c as int - 32) as char else c
  }

  /** `s.lower()`. */
  function Lower(s: string): (r: string)
    ensures |r| == |s|
    ensures forall i :: 0 <= i < |s| ==> r[i] == ToLower(s[i])
  {
    if s == [] then "" else [ToLower(s[0])] + Lower(s[1..])
  }

  /** `s.title()` after a character that is cased (`afterCased`) or not. */
  function TitleFrom(s: string, afterCased: bool): (r: string)
    ensures |r| == |s|
  {
    if s == [] then ""
    else
      var c := if afterCased then ToLower(s[0]) else ToUpper(s[0]);
      [c] + TitleFrom(s[1..], IsCased(c))
  }

  /** `s.title()`: the first letter of every run of letters upper-case, the others lower-case. */
  function Title(s: string): string
  {
    TitleFrom(s, false)
  }

  /** A letter is upper-case exactly when it begins a run of letters. */
  ghost predicate IsTitleCased(s: string)
  {
    && (|s| > 0 && IsCased(s[0]) ==> IsUpper(s[0]))
    && forall i :: 0 < i < |s| && IsCased(s[i]) ==> (IsUpper(s[i]) <==> !IsCased(s[i - 1]))
  }

  lemma {:induction false} TitleFromShape(s: string, afterCased: bool)
    ensures var r := TitleFrom(s, afterCased);
      && (forall i :: 0 <= i < |s| ==> ToLower(r[i]) == ToLower(s[i]))
      && (forall i :: 0 <= i < |s| && IsCased(r[i]) ==>
            (IsUpper(r[i]) <==> if i == 0 then !afterCased else !IsCased(r[i - 1])))
  {
    if s != [] {
      var c := if afterCased then ToLower(s[0]) else ToUpper(s[0]);
      TitleFromShape(s[1..], IsCased(c));
      var r := TitleFrom(s, afterCased);
      assert r == [c] + TitleFrom(s[1..], IsCased(c));
      forall i | 0 <= i < |s|
        ensures ToLower(r[i]) == ToLower(s[i])
      {
        if i > 0 { assert r[i] == TitleFrom(s[1..], IsCased(c))[i - 1]; }
      }
      forall i | 0 < i < |s| && IsCased(r[i])
        ensures IsUpper(r[i]) <==> !IsCased(r[i - 1])
      {
        assert r[i] == TitleFrom(s[1..], IsCased(c))[i - 1];
        if i > 1 { assert r[i - 1] == TitleFrom(s[1..], IsCased(c))[i - 2]; }
      }
    }
  }

  /** `title()` keeps the letters, changes only their case, and leaves the text title-cased. */
  lemma TitleIsTitleCased(s: string)
    ensures |Title(s)| == |s|
    ensures forall i :: 0 <= i < |s| ==> ToLower(Title(s)[i]) == ToLower(s[i])
    ensures IsTitleCased(Title(s))
  {
    TitleFromShape(s, false);
  }

  lemma {:induction false} TitleFromFixes(s: string, afterCased: bool)
    requires |s| > 0 && IsCased(s[0]) ==> (IsUpper(s[0]) <==> !afterCased)
    requires forall i :: 0 < i < |s| && IsCased(s[i]) ==> (IsUpper(s[i]) <==> !IsCased(s[i - 1]))
    ensures TitleFrom(s, afterCased) == s
  {
    if s != [] {
      var c := if afterCased then ToLower(s[0]) else ToUpper(s[0]);
      assert c == s[0];
      var t := s[1..];
      forall i | 0 < i < |t| && IsCased(t[i])
        ensures IsUpper(t[i]) <==> !IsCased(t[i - 1])
      {
        assert t[i] == s[i + 1] && t[i - 1] == s[i];
      }
      if |t| > 0 {
        assert t[0] == s[1];
      }
      TitleFromFixes(t, IsCased(c));
    }
  }

  /** Title-casing is idempotent: `s.title().title() == s.title()`. */
  lemma TitleIdempotent(s: string)
    ensures Title(Title(s)) == Title(s)
  {
    TitleIsTitleCased(s);
    TitleFromFixes(Title(s), false);
  }

  const SociologyMark := "(sociology)"
  const SociologySuffix := " (sociology)"

  /** The label of one topic URL: the text after its last `/`, percent-decoded, with `_`
      read as a space; a label whose lower-cased text mentions `(sociology)` is lower-cased
      and loses every ` (sociology)`; the result is title-cased. */
  function TopicLabel(url: string): string
  {
    Title(Stripped(TopicText(url)))
  }

  /** The last path segment of `url`, percent-decoded, with `_` read as a space. */
  function TopicText(url: string): string
  {
    ReplaceChar(PercentEncoding.Unquote(LastPiece(url, '/')), '_', " ")
  }

  /** A text that mentions `(sociology)` once lower-cased, lower-cased without ` (sociology)`. */
  function Stripped(topic: string): string
  {
    if Contains(Lower(topic), SociologyMark) then RemoveAll(Lower(topic), SociologySuffix) else topic
  }

  /** `parse_topic_urls(topic_details)` as a value: one label per URL, in order. */
  function ParsedTopics(details: TopicDetails): (labels: seq<string>)
    ensures details.topicCategories.None? ==> labels == []
    ensures details.topicCategories.Some? ==> |labels| == |details.topicCategories.value|
  {
    match details.topicCategories
    case None => []
    case Some(urls) => seq(|urls|, i requires 0 <= i < |urls| => TopicLabel(urls[i]))
  }

  /** `parse_topic_urls(topic_details)`: a missing `topicCategories` gives no labels;
      otherwise there is exactly one label per URL, in the same order. */
  method ParseTopicUrls(details: TopicDetails) returns (parsed: seq<string>)
    ensures details.topicCategories.None? ==> parsed == []
    ensures details.topicCategories.Some? ==>
      && |parsed| == |details.topicCategories.value|
      && forall i :: 0 <= i < |parsed| ==> parsed[i] == TopicLabel(details.topicCategories.value[i])
    ensures parsed == ParsedTopics(details)
  {
    var urls := details.topicCategories.GetOr([]);
    parsed := [];
    for i := 0 to |urls|
      invariant |parsed| == i
      invariant forall k :: 0 <= k < i ==> parsed[k] == TopicLabel(urls[k])
    {
      var topic := ReplaceChar(PercentEncoding.Unquote(LastPiece(urls[i], '/')), '_', " ");
      if Contains(Lower(topic), SociologyMark) {
        topic := RemoveAll(Lower(topic), SociologySuffix);
      }
      parsed := parsed + [Title(topic)];
    }
  }

  /** A label depends only on the text after the URL's last `/`. */
  lemma LabelUsesLastSegment(prefix: string, segment: string)
    requires '/' !in segment
    ensures TopicLabel(prefix + "/" + segment) == TopicLabel(segment)
  {
    LastPieceAfterSeparator(prefix, '/', segment);
    assert IndexOf(segment, '/') == |segment|;
    assert LastPiece(segment, '/') == segment;
  }

  lemma {:induction false} RemoveAllKeepsOut(s: string, p: string, c: char)
    requires p != "" && c !in s
    ensures c !in RemoveAll(s, p)
    decreases |s|
  {
    if |s| >= |p| {
      if s[..|p|] == p {
        RemoveAllKeepsOut(s[|p|..], p, c);
      } else {
        RemoveAllKeepsOut(s[1..], p, c);
      }
    }
  }

  /** No label contains `_`: escapes are decoded before `_` becomes a space, so an encoded
      underscore `%5F` becomes a space as well. */
  lemma LabelHasNoUnderscore(url: string)
    ensures '_' !in TopicLabel(url)
  {
    var topic := TopicText(url);
    assert '_' !in topic;
    assert '_' !in Lower(topic);
    RemoveAllKeepsOut(Lower(topic), SociologySuffix, '_');
    TitleIsTitleCased(Stripped(topic));
  }

  /** Every label is title-cased. */
  lemma LabelIsTitleCased(url: string)
    ensures IsTitleCased(TopicLabel(url))
  {
    TitleIsTitleCased(Stripped(TopicText(url)));
  }

  lemma {:induction false} TitleFromIgnoresCase(s: string, afterCased: bool)
    ensures TitleFrom(Lower(s), afterCased) == TitleFrom(s, afterCased)
    decreases |s|
  {
    if s != [] {
      assert Lower(s)[1..] == Lower(s[1..]);
      TitleFromIgnoresCase(s[1..], IsCased(if afterCased then ToLower(s[0]) else ToUpper(s[0])));
    }
  }

  lemma {:induction false} LowerKeeps(s: string)
    requires forall i :: 0 <= i < |s| ==> !IsUpper(s[i])
    ensures Lower(s) == s
  {
  }

  lemma UnderscoreMarkReplaced(mark: string)
    requires mark == SociologyMark
    ensures ReplaceChar("_" + mark, '_', " ") == " " + mark
  {
    ReplaceCharConcat("_", mark, '_', " ");
    assert ReplaceChar("_", '_', " ") == " ";
  }

  lemma SociologySuffixIsLower()
    ensures Lower(SociologySuffix) == SociologySuffix
  {
    LowerKeeps(SociologySuffix);
  }

  lemma LastPieceWhole(s: string, d: char)
    requires d !in s
    ensures LastPiece(s, d) == s
  {
    assert IndexOf(s, d) == |s|;
  }

  lemma UnderscoresReplaced(word: string, mark: string)
    requires '_' !in word
    requires mark == SociologyMark
    ensures ReplaceChar(word + ("_" + mark), '_', " ") == word + (" " + mark)
  {
    ReplaceCharConcat(word, "_" + mark, '_', " ");
    UnderscoreMarkReplaced(mark);
  }

  lemma TextOfSociologyTopic(word: string, mark: string)
    requires forall i :: 0 <= i < |word| ==> word[i] != ' ' && word[i] != '%' && word[i] != '_' && word[i] != '/'
    requires mark == SociologyMark
    ensures TopicText(word + ("_" + mark)) == word + (" " + mark)
  {
    var url := word + ("_" + mark);
    assert '/' !in url && '%' !in url;
    LastPieceWhole(url, '/');
    PercentEncoding.DecodeWithoutPercent(url);
    UnderscoresReplaced(word, mark);
  }

  lemma LowerConcat(a: string, b: string)
    ensures Lower(a + b) == Lower(a) + Lower(b)
  {
    assert |Lower(a + b)| == |Lower(a) + Lower(b)|;
    forall i | 0 <= i < |a + b|
      ensures Lower(a + b)[i] == (Lower(a) + Lower(b))[i]
    {
      if i >= |a| { assert (a + b)[i] == b[i - |a|]; }
    }
  }

  lemma MentionsSociology(text: string, mark: string)
    requires mark == SociologyMark
    ensures Contains(text + (" " + mark), SociologyMark)
  {
    ContainsSuffix(text + " ", mark);
    assert text + " " + mark == text + (" " + mark);
  }

  lemma LowerOfSociologyTopic(word: string, mark: string)
    requires mark == SociologyMark
    ensures Lower(word + (" " + mark)) == Lower(word) + (" " + mark)
  {
    var suffix := " " + mark;
    assert suffix == SociologySuffix;
    LowerConcat(word, suffix);
    SociologySuffixIsLower();
  }

  lemma LowerKeepsSpaceOut(word: string)
    requires ' ' !in word
    ensures ' ' !in Lower(word)
  {
  }

  lemma SuffixRemoved(text: string, suffix: string)
    requires ' ' !in text
    requires suffix == SociologySuffix
    ensures RemoveAll(text + suffix, suffix) == text
  {
    RemoveAllTrailing(text, suffix);
  }

  lemma StrippedWhenMentioned(topic: string, low: string, res: string)
    requires Lower(topic) == low
    requires Contains(low, SociologyMark)
    requires RemoveAll(low, SociologySuffix) == res
    ensures Stripped(topic) == res
  {
  }

  lemma StrippedSociologyTopic(word: string, mark: string, topic: string, low: string)
    requires ' ' !in word
    requires mark == SociologyMark
    requires topic == word + (" " + mark)
    requires low == Lower(word)
    ensures Stripped(topic) == low
  {
    LowerOfSociologyTopic(word, mark);
    MentionsSociology(low, mark);
    LowerKeepsSpaceOut(word);
    assert " " + mark == SociologySuffix;
    SuffixRemoved(low, " " + mark);
    StrippedWhenMentioned(topic, low + (" " + mark), low);
  }

  lemma SuffixRemovedFor(word: string, mark: string, url: string)
    requires forall i :: 0 <= i < |word| ==> word[i] != ' ' && word[i] != '%' && word[i] != '_' && word[i] != '/'
    requires mark == SociologyMark
    requires url == word + ("_" + mark)
    ensures TopicLabel(url) == Title(word)
  {
    TextOfSociologyTopic(word, mark);
    StrippedSociologyTopic(word, mark, word + (" " + mark), Lower(word));
    TitleFromIgnoresCase(word, false);
  }

  /** A topic written as one word followed by `_(sociology)` is labelled with that word
      alone, title-cased. */
  lemma SociologySuffixRemoved(word: string)
    requires forall i :: 0 <= i < |word| ==> word[i] != ' ' && word[i] != '%' && word[i] != '_' && word[i] != '/'
    ensures TopicLabel(word + "_" + SociologyMark) == Title(word)
  {
    SuffixRemovedFor(word, SociologyMark, word + "_" + SociologyMark);
  }

  /** An encoded underscore `%5F` is read exactly like `_`. */
  lemma EncodedUnderscoreIsSpace(before: string, after: string)
    requires '%' !in before && '%' !in after
    requires '/' !in before && '/' !in after
    ensures TopicLabel(before + "%5F" + after) == TopicLabel(before + "_" + after)
  {
    var encoded := before + "%5F" + after;
    var plain := before + "_" + after;
    assert encoded == before + ("%5F" + after) && plain == before + ("_" + after);
    assert '/' !in encoded && '/' !in plain && '%' !in plain;
    LastPieceWhole(encoded, '/');
    LastPieceWhole(plain, '/');
    PercentEncoding.UnquotePlainPrefix(before, "%5F" + after);
    assert PercentEncoding.EscapedOctet("%5F") == 0x5F;
    PercentEncoding.UnquoteAsciiEscape("%5F", after);
    PercentEncoding.DecodeWithoutPercent(after);
    PercentEncoding.DecodeWithoutPercent(plain);
    assert TopicText(encoded) == TopicText(plain);
  }

  lemma ExampleLabel(prefix: string, word: string, url: string)
    requires '/' !in word && '/' !in SociologyMark
    requires forall i :: 0 <= i < |word| ==> word[i] != ' ' && word[i] != '%' && word[i] != '_' && word[i] != '/'
    requires IsTitleCased(word)
    requires url == prefix + "/" + (word + "_" + SociologyMark)
    ensures TopicLabel(url) == word
  {
    assert '/' !in word + "_" + SociologyMark;
    LabelUsesLastSegment(prefix, word + "_" + SociologyMark);
    SociologySuffixRemoved(word);
    TitleFromFixes(word, false);
  }

  /** A capital letter followed by small letters is title-cased and holds no separator. */
  lemma CapitalisedWord(word: string)
    requires |word| > 0 && IsUpper(word[0])
    requires forall i :: 0 < i < |word| ==> IsLower(word[i])
    ensures IsTitleCased(word)
    ensures forall i :: 0 <= i < |word| ==> word[i] != ' ' && word[i] != '%' && word[i] != '_' && word[i] != '/'
  {
  }

  /** `Lifestyle_(sociology)` is labelled `Lifestyle`. */
  lemma LifestyleExample()
    ensures TopicLabel("https://en.wikipedia.org/wiki/Lifestyle_(sociology)") == "Lifestyle"
  {
    var word := "Lifestyle";
    assert forall i :: 0 < i < |word| ==> IsLower(word[i]);
    CapitalisedWord(word);
    var prefix, segment := "https://en.wikipedia.org/wiki", "Lifestyle_(sociology)";
    assert segment == word + "_" + SociologyMark;
    assert prefix + "/" + segment == "https://en.wikipedia.org/wiki/Lifestyle_(sociology)";
    ExampleLabel(prefix, word, prefix + "/" + segment);
  }
}
