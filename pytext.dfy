/** The string operations the server applies to the model's reply before parsing it. */
module PyText {

  /** Python's `str.isspace` for one character: the characters `str.strip()` removes with no argument. */
  predicate IsSpace(c: char) {
    || c == ' ' || '\t' <= c <= '\r' || '\U{1C}' <= c <= '\U{1F}' || c == '\U{85}' || c == '\U{A0}'
    || c == '\U{1680}' || '\U{2000}' <= c <= '\U{200A}' || c == '\U{2028}' || c == '\U{2029}'
    || c == '\U{202F}' || c == '\U{205F}' || c == '\U{3000}'
  }

  predicate AllSpace(s: string) {
    forall k :: 0 <= k < |s| ==> IsSpace(s[k])
  }

  /** The number of whitespace characters `s` starts with: what `s.lstrip()` removes. */
  function LeadingSpace(s: string): (n: nat)
    ensures n <= |s|
    ensures forall k :: 0 <= k < n ==> IsSpace(s[k])
    ensures n < |s| ==> !IsSpace(s[n])
  {
    if s != [] && IsSpace(s[0]) then 1 + LeadingSpace(s[1..]) else 0
  }

  /** The number of whitespace characters `s` ends with: what `s.rstrip()` removes. */
  function TrailingSpace(s: string): (n: nat)
    ensures n <= |s|
    ensures forall k :: |s| - n <= k < |s| ==> IsSpace(s[k])
    ensures n < |s| ==> !IsSpace(s[|s| - 1 - n])
  {
    if s != [] && IsSpace(s[|s| - 1]) then 1 + TrailingSpace(s[..|s| - 1]) else 0
  }

  /** `s.lstrip()`: the longest suffix of `s` that does not start with whitespace. */
  function TrimStart(s: string): (r: string)
    ensures |r| <= |s|
    ensures r == [] || !IsSpace(r[0])
  {
    s[LeadingSpace(s)..]
  }

  /** `s.rstrip()`: the longest prefix of `s` that does not end with whitespace. */
  function TrimEnd(s: string): (r: string)
    ensures |r| <= |s|
    ensures r == [] || !IsSpace(r[|r| - 1])
  {
    s[..|s| - TrailingSpace(s)]
  }

  /** `s.strip()`: `s` without its leading and trailing whitespace. */
  function Strip(s: string): (r: string)
    ensures |r| <= |s|
    ensures r == [] || (!IsSpace(r[0]) && !IsSpace(r[|r| - 1]))
  {
    TrimEnd(TrimStart(s))
  }

  /** What `lstrip()` cuts away is whitespace. */
  lemma LeadingSpaceCut(s: string)
    ensures AllSpace(s[..LeadingSpace(s)])
  {
    var pre := s[..LeadingSpace(s)];
    forall k | 0 <= k < |pre|
      ensures IsSpace(pre[k])
    {
      assert pre[k] == s[k];
    }
  }

  /** What `rstrip()` cuts away is whitespace. */
  lemma TrailingSpaceCut(t: string)
    ensures AllSpace(t[|t| - TrailingSpace(t)..])
  {
    var m := |t| - TrailingSpace(t);
    var post := t[m..];
    forall k | 0 <= k < |post|
      ensures IsSpace(post[k])
    {
      assert post[k] == t[m + k];
    }
  }

  /** What `strip()` cuts away is whitespace only, from either end. */
  lemma {:induction false} StripCutsOnlySpace(s: string) returns (pre: string, post: string)
    ensures s == pre + Strip(s) + post
    ensures AllSpace(pre) && AllSpace(post)
  {
    var a := LeadingSpace(s);
    var t := s[a..];
    var m := |t| - TrailingSpace(t);
    pre, post := s[..a], t[m..];
    LeadingSpaceCut(s);
    TrailingSpaceCut(t);
    assert Strip(s) == t[..m];
    SplitTwice(s, a, m);
  }

  lemma SplitTwice(s: string, a: nat, m: nat)
    requires a <= |s| && m <= |s| - a
    ensures s == s[..a] + s[a..][..m] + s[a..][m..]
  {
    assert s[a..] == s[a..][..m] + s[a..][m..];
    assert s == s[..a] + s[a..];
  }

  /** A text without whitespace at its ends is left as it is by `strip()`. */
  lemma StripKeepsStripped(t: string)
    requires t == [] || (!IsSpace(t[0]) && !IsSpace(t[|t| - 1]))
    ensures Strip(t) == t
  {
    assert LeadingSpace(t) == 0;
    assert TrimStart(t) == t;
    assert TrailingSpace(t) == 0;
  }

  lemma StripIdempotent(s: string)
    ensures Strip(Strip(s)) == Strip(s)
  {
    StripKeepsStripped(Strip(s));
  }

  /** `s.endswith("}")`. */
  predicate EndsWithBrace(s: string) {
    |s| > 0 && s[|s| - 1] == '}'
  }

  /** The completeness test `text.strip().endswith("}")` that /chat and /transcribe apply to the model's reply. */
  predicate LooksComplete(text: string): (b: bool)
    ensures b <==> TrailingSpace(text) < |text| && text[|text| - 1 - TrailingSpace(text)] == '}'
  {
    StripEndsAtLastNonSpace(text);
    EndsWithBrace(Strip(text))
  }

  /** The trailing whitespace count is the only count that covers whitespace and stops at a non-whitespace. */
  lemma TrailingSpaceUnique(s: string, n: nat)
    requires n <= |s|
    requires forall k :: |s| - n <= k < |s| ==> IsSpace(s[k])
    requires n < |s| ==> !IsSpace(s[|s| - 1 - n])
    ensures TrailingSpace(s) == n
  {
  }

  /** `strip()` gives nothing exactly for an all-whitespace text, and otherwise ends at its last non-whitespace. */
  lemma StripEndsAtLastNonSpace(s: string)
    ensures Strip(s) == [] <==> TrailingSpace(s) == |s|
    ensures Strip(s) != [] ==> Strip(s)[|Strip(s)| - 1] == s[|s| - 1 - TrailingSpace(s)]
  {
    var a := LeadingSpace(s);
    var t := s[a..];
    var m := TrailingSpace(s);
    assert TrimStart(s) == t;
    if a == |s| {
      TrailingSpaceUnique(s, |s|);
    } else {
      assert !IsSpace(t[0]);
      assert m < |t|;
      forall k | |t| - m <= k < |t|
        ensures IsSpace(t[k])
      {
        assert t[k] == s[a + k];
      }
      assert t[|t| - 1 - m] == s[|s| - 1 - m];
      TrailingSpaceUnique(t, m);
      assert Strip(s) == t[..|t| - m];
    }
  }

  /** Whitespace put in front of a text adds exactly its own length to the leading whitespace. */
  lemma {:induction false} LeadingSpaceSkips(pre: string, rest: string)
    requires AllSpace(pre)
    ensures LeadingSpace(pre + rest) == |pre| + LeadingSpace(rest)
  {
    if pre != [] {
      var whole := pre + rest;
      assert whole[0] == pre[0] && IsSpace(pre[0]);
      assert whole[1..] == pre[1..] + rest;
      LeadingSpaceSkips(pre[1..], rest);
    } else {
      assert pre + rest == rest;
    }
  }

  /** Whitespace put after a text adds exactly its own length to the trailing whitespace. */
  lemma {:induction false} TrailingSpaceSkips(rest: string, post: string)
    requires AllSpace(post)
    ensures TrailingSpace(rest + post) == TrailingSpace(rest) + |post|
  {
    if post != [] {
      var n := |post| - 1;
      var whole := rest + post;
      assert whole[|whole| - 1] == post[n] && IsSpace(post[n]);
      assert whole[..|whole| - 1] == rest + post[..n];
      TrailingSpaceSkips(rest, post[..n]);
    } else {
      assert rest + post == rest;
    }
  }

  lemma TrimStartSkipsSpace(pre: string, rest: string)
    requires AllSpace(pre)
    ensures TrimStart(pre + rest) == TrimStart(rest)
  {
    LeadingSpaceSkips(pre, rest);
    assert (pre + rest)[|pre| + LeadingSpace(rest)..] == rest[LeadingSpace(rest)..];
  }

  lemma TrimEndSkipsSpace(rest: string, post: string)
    requires AllSpace(post)
    ensures TrimEnd(rest + post) == TrimEnd(rest)
  {
    TrailingSpaceSkips(rest, post);
    assert (rest + post)[..|rest| - TrailingSpace(rest)] == rest[..|rest| - TrailingSpace(rest)];
  }

  /** `strip()` recovers any text that has no whitespace at its ends from whatever whitespace surrounds it. */
  lemma StripRemovesPadding(pre: string, text: string, post: string)
    requires AllSpace(pre) && AllSpace(post)
    requires text == [] || (!IsSpace(text[0]) && !IsSpace(text[|text| - 1]))
    ensures Strip(pre + text + post) == text
  {
    if text == [] {
      assert pre + text + post == pre + post + [];
      TrimStartSkipsSpace(pre + post, []);
    } else {
      assert pre + text + post == pre + (text + post);
      TrimStartSkipsSpace(pre, text + post);
      assert LeadingSpace(text + post) == 0;
      assert TrimStart(text + post) == text + post;
      TrimEndSkipsSpace(text, post);
      StripKeepsStripped(text);
    }
  }

  /** The completeness test looks through any whitespace around the reply. */
  lemma LooksCompleteIgnoresPadding(pre: string, text: string, post: string)
    requires AllSpace(pre) && AllSpace(post)
    ensures LooksComplete(pre + Strip(text) + post) == LooksComplete(text)
  {
    StripRemovesPadding(pre, Strip(text), post);
  }

  /** The unquoted dose range `1-2` starts at index `i` of `s`. */
  predicate RangeAt(s: string, i: int) {
    0 <= i && i + 3 <= |s| && s[i] == '1' && s[i + 1] == '-' && s[i + 2] == '2'
  }

  /** `s.replace('1-2', '"1-2"')`: Python scans left to right and replaces non-overlapping occurrences. */
  function QuoteRanges(s: string): string
    decreases |s|
  {
    if |s| < 3 then s
    else if RangeAt(s, 0) then "\"1-2\"" + QuoteRanges(s[3..])
    else [s[0]] + QuoteRanges(s[1..])
  }

  /** `s` with every double quote removed: what is left when the quoting is ignored. */
  function Unquoted(s: string): (r: string)
    ensures |r| <= |s|
  {
    if s == [] then [] else (if s[0] == '"' then [] else [s[0]]) + Unquoted(s[1..])
  }

  lemma {:induction false} QuoteRangesHead(t: string)
    requires t != []
    ensures QuoteRanges(t) != []
    ensures QuoteRanges(t)[0] == if RangeAt(t, 0) then '"' else t[0]
  {
  }

  /** After quoting, every `1-2` left in the text sits between two double quotes: no dose range stays bare. */
  lemma {:induction false} RangeQuoted(s: string, i: int)
    requires RangeAt(QuoteRanges(s), i)
    ensures 0 < i && i + 3 < |QuoteRanges(s)|
    ensures QuoteRanges(s)[i - 1] == '"' && QuoteRanges(s)[i + 3] == '"'
    decreases |s|
  {
    var r := QuoteRanges(s);
    if |s| < 3 {
      assert false;
    } else if RangeAt(s, 0) {
      var rest := QuoteRanges(s[3..]);
      assert r == "\"1-2\"" + rest;
      if i >= 5 {
        assert RangeAt(rest, i - 5);
        RangeQuoted(s[3..], i - 5);
      }
    } else {
      var rest := QuoteRanges(s[1..]);
      assert r == [s[0]] + rest;
      if i == 0 {
        QuoteRangesHead(s[2..]);
        QuoteRangesHead(s[1..]);
        assert false;
      } else {
        assert RangeAt(rest, i - 1);
        RangeQuoted(s[1..], i - 1);
      }
    }
  }

  lemma {:induction false} UnquotedConcat(a: string, b: string)
    ensures Unquoted(a + b) == Unquoted(a) + Unquoted(b)
  {
    if a != [] {
      assert (a + b)[1..] == a[1..] + b;
      UnquotedConcat(a[1..], b);
    } else {
      assert a + b == b;
    }
  }

  lemma UnquotedRange()
    ensures Unquoted("1-2") == "1-2"
    ensures Unquoted("\"1-2\"") == "1-2"
  {
    assert Unquoted("\"") == [];
    assert Unquoted("2\"") == "2";
    assert Unquoted("-2\"") == "-2";
    assert Unquoted("1-2\"") == "1-2";
    assert Unquoted("2") == "2";
    assert Unquoted("-2") == "-2";
  }

  /** Quoting only inserts double quotes: ignoring them, the text is exactly what the model replied. */
  lemma {:induction false} QuoteRangesOnlyAddsQuotes(s: string)
    ensures Unquoted(QuoteRanges(s)) == Unquoted(s)
    decreases |s|
  {
    if |s| < 3 {
    } else if RangeAt(s, 0) {
      QuoteRangesOnlyAddsQuotes(s[3..]);
      UnquotedConcat("\"1-2\"", QuoteRanges(s[3..]));
      UnquotedConcat(s[..3], s[3..]);
      assert s == s[..3] + s[3..];
      assert s[..3] == "1-2";
      UnquotedRange();
    } else {
      QuoteRangesOnlyAddsQuotes(s[1..]);
      UnquotedConcat([s[0]], QuoteRanges(s[1..]));
      UnquotedConcat([s[0]], s[1..]);
      assert s == [s[0]] + s[1..];
    }
  }

  /** A reply without any `1-2` is passed to the parser untouched. */
  lemma {:induction false} QuoteRangesKeepsPlainText(s: string)
    requires forall i :: !RangeAt(s, i)
    ensures QuoteRanges(s) == s
    decreases |s|
  {
    if |s| >= 3 {
      assert !RangeAt(s, 0);
      forall i ensures !RangeAt(s[1..], i) {
        assert RangeAt(s[1..], i) ==> RangeAt(s, i + 1);
      }
      QuoteRangesKeepsPlainText(s[1..]);
      assert s == [s[0]] + s[1..];
    }
  }

  lemma {:induction false} QuoteRangesLast(t: string)
    requires t != []
    ensures QuoteRanges(t) != []
    ensures QuoteRanges(t)[|QuoteRanges(t)| - 1] in {t[|t| - 1], '"'}
    ensures QuoteRanges(t)[|QuoteRanges(t)| - 1] == '}' <==> t[|t| - 1] == '}'
    decreases |t|
  {
    if |t| < 3 {
    } else if RangeAt(t, 0) {
      if |t| > 3 {
        QuoteRangesLast(t[3..]);
      }
    } else {
      QuoteRangesLast(t[1..]);
    }
  }

  lemma QuoteRangesEnds(t: string)
    requires t != [] && !IsSpace(t[0]) && !IsSpace(t[|t| - 1])
    ensures QuoteRanges(t) != []
    ensures !IsSpace(QuoteRanges(t)[0]) && !IsSpace(QuoteRanges(t)[|QuoteRanges(t)| - 1])
  {
    QuoteRangesHead(t);
    QuoteRangesLast(t);
  }

  lemma QuotingKeepsStripped(t: string)
    requires t == [] || (!IsSpace(t[0]) && !IsSpace(t[|t| - 1]))
    ensures Strip(QuoteRanges(t)) == QuoteRanges(t)
  {
    var q := QuoteRanges(t);
    if t != [] {
      QuoteRangesEnds(t);
    } else {
      assert q == [];
    }
    StripKeepsStripped(q);
  }

  lemma QuotingKeepsBrace(t: string)
    ensures EndsWithBrace(QuoteRanges(t)) == EndsWithBrace(t)
  {
    if t != [] {
      QuoteRangesLast(t);
    }
  }

  /** Quoting the ranges never changes the verdict of the completeness test on a stripped reply. */
  lemma QuotingKeepsCompleteness(s: string)
    ensures LooksComplete(QuoteRanges(Strip(s))) == LooksComplete(s)
  {
    StripIdempotent(s);
    QuotingKeepsStripped(Strip(s));
    QuotingKeepsBrace(Strip(s));
  }

  /**
   * Together with `QuoteRangesKeepsPlainText` this pins the replacement down: the text before the first `1-2` is
   * kept as it is, that `1-2` becomes `"1-2"`, and the scan resumes right after it.
   */
  lemma {:induction false} QuoteRangesSplit(a: string, b: string)
    requires forall i :: 0 <= i < |a| ==> !RangeAt(a + "1-2" + b, i)
    ensures QuoteRanges(a + "1-2" + b) == a + "\"1-2\"" + QuoteRanges(b)
    decreases |a|
  {
    var s := a + "1-2" + b;
    if a == [] {
      assert s == "1-2" + b && RangeAt(s, 0);
      assert s[3..] == b;
    } else {
      assert !RangeAt(s, 0);
      assert s[1..] == a[1..] + "1-2" + b;
      forall i | 0 <= i < |a| - 1
        ensures !RangeAt(a[1..] + "1-2" + b, i)
      {
        assert !RangeAt(s, i + 1);
      }
      QuoteRangesSplit(a[1..], b);
      assert [a[0]] + a[1..] == a;
    }
  }

  /** A dose range the model already quoted is quoted a second time: `"1-2"` becomes `""1-2""`. */
  lemma QuoteRangesRequotes()
    ensures QuoteRanges("\"1-2\"") == "\"\"1-2\"\""
  {
    QuoteRangesSplit("\"", "\"");
    assert "\"" + "1-2" + "\"" == "\"1-2\"";
    assert QuoteRanges("\"") == "\"";
  }
}
