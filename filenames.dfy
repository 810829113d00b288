/** `filename_from_query`: the output file name derived from the issue query
    and the snapshot dates. Every run of characters other than ASCII letters
    becomes one `_`, underscores are stripped from both ends, the stem is cut
    to leave room for the dates, and `_<start>_<end>` is appended. The two
    dates arrive already rendered (`strftime("%Y%m%d")`). */
module Filenames {

  /** The length limit used unless the caller gives another. */
  const DEFAULT_MAX_FILENAME_LENGTH: int := 127

  /** The class `[A-Za-z]`. */
  predicate IsLetter(c: char)
  {
    ('A' <= c <= 'Z') || ('a' <= c <= 'z')
  }

  /** The letters of `s`, in order. */
  function Letters(s: string): string
  {
    if s == [] then [] else (if IsLetter(s[0]) then [s[0]] else []) + Letters(s[1..])
  }

  lemma {:induction false} LettersConcat(a: string, b: string)
    ensures Letters(a + b) == Letters(a) + Letters(b)
    decreases |a|
  {
    if a == [] {
      assert a + b == b;
    } else {
      var head := if IsLetter(a[0]) then [a[0]] else [];
      assert (a + b)[0] == a[0];
      assert (a + b)[1..] == a[1..] + b;
      assert Letters(a + b) == head + Letters(a[1..] + b);
      LettersConcat(a[1..], b);
      assert Letters(a) == head + Letters(a[1..]);
    }
  }

  /** Positions `k` and `k + 1` of `s` both hold `_`. */
  predicate DoubleUnderscoreAt(s: string, k: nat)
    requires k + 1 < |s|
  {
    s[k] == '_' && s[k + 1] == '_'
  }

  /** No two `_` side by side. */
  predicate NoDoubleUnderscore(s: string)
  {
    forall k: nat :: k + 1 < |s| ==> !DoubleUnderscoreAt(s, k)
  }

  /** Only letters and `_`. */
  predicate LettersAndUnderscores(s: string)
  {
    forall k :: 0 <= k < |s| ==> IsLetter(s[k]) || s[k] == '_'
  }

  /** No letters at all. */
  predicate NoLetters(s: string)
  {
    forall k :: 0 <= k < |s| ==> !IsLetter(s[k])
  }

  /** Only `_`. */
  predicate Underscores(s: string)
  {
    forall k :: 0 <= k < |s| ==> s[k] == '_'
  }

  /** `s` without its leading run of non-letters. */
  function DropNonLetters(s: string): (r: string)
    ensures |r| <= |s| && forall k :: 0 <= k < |r| ==> r[k] == s[|s| - |r| + k]
    ensures r == [] || IsLetter(r[0])
    ensures NoLetters(s[..|s| - |r|])
    ensures Letters(r) == Letters(s)
  {
    if s == [] || IsLetter(s[0]) then s else DropNonLetters(s[1..])
  }

  /** `re.sub(r'[^A-Za-z]+', '_', s)`: each maximal run of non-letters is
      replaced by a single `_`. */
  function CollapseNonLetters(s: string): (r: string)
    ensures r == [] <==> s == []
    ensures r != [] ==> (r[0] == '_' <==> !IsLetter(s[0]))
    decreases |s|
  {
    if s == [] then []
    else if IsLetter(s[0]) then [s[0]] + CollapseNonLetters(s[1..])
    else "_" + CollapseNonLetters(DropNonLetters(s))
  }

  /** The substitution leaves only letters and single underscores, and keeps every letter in order. */
  lemma {:induction false} CollapseShape(s: string)
    ensures var r := CollapseNonLetters(s);
            LettersAndUnderscores(r) && NoDoubleUnderscore(r) && Letters(r) == Letters(s)
    decreases |s|
  {
    if s != [] {
      var r := CollapseNonLetters(s);
      var rest := if IsLetter(s[0]) then s[1..] else DropNonLetters(s);
      var tail := CollapseNonLetters(rest);
      CollapseShape(rest);
      assert r == [r[0]] + tail && r[1..] == tail;
      forall k: nat | k + 1 < |r|
        ensures !DoubleUnderscoreAt(r, k)
      {
        if k > 0 {
          assert DoubleUnderscoreAt(r, k) == DoubleUnderscoreAt(tail, k - 1);
        }
      }
    }
  }

  /** `s` without its leading underscores. */
  function StripLeading(s: string): (r: string)
    ensures |r| <= |s| && forall k :: 0 <= k < |r| ==> r[k] == s[|s| - |r| + k]
    ensures r == [] || r[0] != '_'
    ensures Underscores(s[..|s| - |r|])
    ensures Letters(r) == Letters(s)
  {
    if s != [] && s[0] == '_' then
      var r := StripLeading(s[1..]);
      UnderscoreStep(s, r);
      r
    else s
  }

  /** A suffix of `s[1..]` after underscores is one of `s` after underscores, when `s` starts with `_`. */
  lemma UnderscoreStep(s: string, r: string)
    requires s != [] && s[0] == '_' && |r| <= |s| - 1
    requires forall k :: 0 <= k < |r| ==> r[k] == s[1..][|s| - 1 - |r| + k]
    requires Underscores(s[1..][..|s| - 1 - |r|]) && Letters(r) == Letters(s[1..])
    ensures forall k :: 0 <= k < |r| ==> r[k] == s[|s| - |r| + k]
    ensures Underscores(s[..|s| - |r|])
    ensures Letters(r) == Letters(s)
  {
    var n := |s| - |r|;
    assert s[..n] == [s[0]] + s[1..][..n - 1];
    forall k | 0 <= k < n ensures s[..n][k] == '_' {
      if k > 0 {
        assert s[..n][k] == s[1..][..n - 1][k - 1];
      }
    }
  }

  /** `s` without its trailing underscores. */
  function StripTrailing(s: string): (r: string)
    ensures |r| <= |s| && forall k :: 0 <= k < |r| ==> r[k] == s[k]
    ensures r == [] || r[|r| - 1] != '_'
    ensures Underscores(s[|r|..])
    ensures Letters(r) == Letters(s)
  {
    if s != [] && s[|s| - 1] == '_' then
      var r := StripTrailing(s[..|s| - 1]);
      LettersConcat(s[..|s| - 1], [s[|s| - 1]]);
      assert s[..|s| - 1] + [s[|s| - 1]] == s;
      r
    else s
  }

  /** The stem: `re.sub(r'[^A-Za-z]+', '_', query).strip('_')`. */
  function Stem(query: string): string
  {
    StripTrailing(StripLeading(CollapseNonLetters(query)))
  }

  /** The stem holds only letters and single `_`, with no `_` at either end. */
  lemma StemShape(query: string)
    ensures var stem := Stem(query);
            && LettersAndUnderscores(stem)
            && NoDoubleUnderscore(stem)
            && (stem != [] ==> stem[0] != '_' && stem[|stem| - 1] != '_')
  {
    var c := CollapseNonLetters(query);
    CollapseShape(query);
    var l := StripLeading(c);
    StripLeadingShape(c);
    StripTrailingShape(l);
  }

  /** Stripping leading underscores keeps the shape and leaves no `_` in front. */
  lemma StripLeadingShape(c: string)
    requires LettersAndUnderscores(c) && NoDoubleUnderscore(c)
    ensures var l := StripLeading(c);
            LettersAndUnderscores(l) && NoDoubleUnderscore(l) && (l == [] || l[0] != '_')
  {
    var l := StripLeading(c);
    SliceShape(c, |c| - |l|, |c|);
    assert c[|c| - |l|..|c|] == l;
  }

  /** Stripping trailing underscores keeps the shape and the first character, and
      leaves no `_` at the end. */
  lemma StripTrailingShape(l: string)
    requires LettersAndUnderscores(l) && NoDoubleUnderscore(l) && (l == [] || l[0] != '_')
    ensures var stem := StripTrailing(l);
            && LettersAndUnderscores(stem) && NoDoubleUnderscore(stem)
            && (stem != [] ==> stem[0] != '_' && stem[|stem| - 1] != '_')
  {
    var stem := StripTrailing(l);
    SliceShape(l, 0, |stem|);
    assert l[0..|stem|] == stem;
  }

  /** The stem keeps every letter of the query, in order, and nothing else
      but underscores; so it is empty exactly when the query has no letter. */
  lemma StemLetters(query: string)
    ensures Letters(Stem(query)) == Letters(query)
    ensures Stem(query) == [] <==> Letters(query) == []
  {
    CollapseShape(query);
    var stem := Stem(query);
    if stem != [] {
      StemShape(query);
      assert IsLetter(stem[0]);
      assert Letters(stem) == [stem[0]] + Letters(stem[1..]);
    }
  }

  /** A piece of a string of letters and single underscores is one too. */
  lemma SliceShape(c: string, i: nat, j: nat)
    requires i <= j <= |c|
    requires LettersAndUnderscores(c) && NoDoubleUnderscore(c)
    ensures LettersAndUnderscores(c[i..j]) && NoDoubleUnderscore(c[i..j])
  {
    var p := c[i..j];
    forall k: nat | k + 1 < |p|
      ensures !DoubleUnderscoreAt(p, k)
    {
      assert DoubleUnderscoreAt(p, k) == DoubleUnderscoreAt(c, i + k);
    }
  }

  /** Python's `s[:n]`: a negative `n` counts from the end. */
  function PyPrefix(s: string, n: int): (r: string)
    ensures |r| <= |s| && r == s[..|r|]
    ensures n >= 0 ==> |r| == if n < |s| then n else |s|
    ensures n < 0 ==> |r| == if |s| + n > 0 then |s| + n else 0
  {
    if n >= 0 then (if n < |s| then s[..n] else s)
    else if |s| + n > 0 then s[..|s| + n] else []
  }

  /** The stem, cut to leave room for the dates when the limit is truthy, then `_` and the dates. */
  function WithDates(stem: string, dates: string, maxFilenameLength: int): string
  {
    if maxFilenameLength != 0 then PyPrefix(stem, maxFilenameLength - |dates|) + "_" + dates
    else stem + "_" + dates
  }

  /** `filename_from_query`; a length limit of 0 is falsy and disables the cut. */
  function FilenameFromQuery(query: string, startDate: string, endDate: string, maxFilenameLength: int): string
  {
    WithDates(Stem(query), startDate + "_" + endDate, maxFilenameLength)
  }

  /** The file name of a query is a prefix of its stem, then `_`, the start
      date, `_` and the end date; with a limit of 0 the prefix is the whole stem. */
  lemma FilenameShape(query: string, startDate: string, endDate: string, maxFilenameLength: int)
    ensures var name := FilenameFromQuery(query, startDate, endDate, maxFilenameLength);
            var dates := startDate + "_" + endDate;
            && |name| > |dates|
            && name[|name| - |dates| - 1..] == "_" + dates
            && var kept := name[..|name| - |dates| - 1];
               && kept == Stem(query)[..|kept|]
               && (maxFilenameLength == 0 ==> kept == Stem(query))
  {
    var dates := startDate + "_" + endDate;
    assert FilenameFromQuery(query, startDate, endDate, maxFilenameLength) == WithDates(Stem(query), dates, maxFilenameLength);
    WithDatesShape(Stem(query), dates, maxFilenameLength);
  }

  /** The name is a prefix of the stem, then `_<start>_<end>`; the prefix is
      the whole stem without a limit, and otherwise as long as the limit less
      the dates allows, counted from the end of the stem when the limit is
      shorter than the dates. With a limit at least as long as the dates the
      name is at most one character longer than the limit. */
  lemma WithDatesShape(stem: string, dates: string, maxFilenameLength: int)
    ensures var name := WithDates(stem, dates, maxFilenameLength);
            var n := maxFilenameLength - |dates|;
            && |name| > |dates|
            && name[|name| - |dates| - 1..] == "_" + dates
            && var kept := name[..|name| - |dates| - 1];
               && kept == stem[..|kept|]
               && (maxFilenameLength == 0 ==> kept == stem)
               && (maxFilenameLength != 0 && n >= 0 ==> |kept| == if n < |stem| then n else |stem|)
               && (maxFilenameLength != 0 && n < 0 ==> |kept| == if |stem| + n > 0 then |stem| + n else 0)
               && (maxFilenameLength != 0 && n >= 0 ==> |name| <= maxFilenameLength + 1)
  {
    var kept := if maxFilenameLength != 0 then PyPrefix(stem, maxFilenameLength - |dates|) else stem;
    var tail := "_" + dates;
    assert WithDates(stem, dates, maxFilenameLength) == kept + tail;
    Split(kept, tail);
  }

  lemma Split(a: string, b: string)
    ensures (a + b)[..|a|] == a && (a + b)[|a|..] == b
  {
  }

  /** Only letters. */
  predicate AllLetters(s: string)
  {
    forall k :: 0 <= k < |s| ==> IsLetter(s[k])
  }

  /** A run of letters is left as it is by the substitution. */
  lemma {:induction false} CollapseLetters(q: string)
    requires AllLetters(q)
    ensures CollapseNonLetters(q) == q
    decreases |q|
  {
    if q != [] {
      assert AllLetters(q[1..]) by {
        forall k | 0 <= k < |q| - 1 ensures IsLetter(q[1..][k]) { assert q[1..][k] == q[k + 1]; }
      }
      CollapseLetters(q[1..]);
      assert q == [q[0]] + q[1..];
    }
  }

  /** A letter in front passes the substitution unchanged. */
  lemma CollapseCons(c: char, t: string)
    requires IsLetter(c)
    ensures CollapseNonLetters([c] + t) == [c] + CollapseNonLetters(t)
  {
    assert ([c] + t)[0] == c && ([c] + t)[1..] == t;
  }

  /** Letters in front pass the substitution unchanged. */
  lemma {:induction false} CollapseLettersPrefix(a: string, t: string)
    requires AllLetters(a)
    ensures CollapseNonLetters(a + t) == a + CollapseNonLetters(t)
    decreases |a|
  {
    if a == [] {
      assert a + t == t;
    } else {
      var rest := a[1..];
      assert AllLetters(rest) by {
        forall k | 0 <= k < |rest| ensures IsLetter(rest[k]) { assert rest[k] == a[k + 1]; }
      }
      assert a == [a[0]] + rest;
      Append3([a[0]], rest, t);
      CollapseCons(a[0], rest + t);
      CollapseLettersPrefix(rest, t);
      Append3([a[0]], rest, CollapseNonLetters(t));
    }
  }

  /** A non-letter in front is dropped. */
  lemma DropCons(c: char, t: string)
    requires !IsLetter(c)
    ensures DropNonLetters([c] + t) == DropNonLetters(t)
  {
    assert ([c] + t)[0] == c && ([c] + t)[1..] == t;
  }

  /** A run of non-letters is dropped up to the letter that follows it. */
  lemma {:induction false} DropRun(sep: string, b: string)
    requires NoLetters(sep) && (b == [] || IsLetter(b[0]))
    ensures DropNonLetters(sep + b) == b
    decreases |sep|
  {
    if sep == [] {
      assert sep + b == b;
    } else {
      var rest := sep[1..];
      assert NoLetters(rest) by {
        forall k | 0 <= k < |rest| ensures !IsLetter(rest[k]) { assert rest[k] == sep[k + 1]; }
      }
      assert sep + b == [sep[0]] + (rest + b);
      DropCons(sep[0], rest + b);
      DropRun(rest, b);
    }
  }

  /** A non-letter in front, and the rest of its run, become one `_`. */
  lemma CollapseRun(sep: string, b: string)
    requires sep != [] && NoLetters(sep) && (b == [] || IsLetter(b[0]))
    ensures CollapseNonLetters(sep + b) == "_" + CollapseNonLetters(b)
  {
    DropRun(sep, b);
    assert (sep + b)[0] == sep[0];
  }

  /** Where the `_` goes: letters, then a whole run of non-letters, then what
      follows the run; the run becomes one `_` in its place. */
  lemma CollapseSplit(a: string, sep: string, b: string)
    requires AllLetters(a) && sep != [] && NoLetters(sep) && (b == [] || IsLetter(b[0]))
    ensures CollapseNonLetters(a + sep + b) == a + "_" + CollapseNonLetters(b)
  {
    assert a + sep + b == a + (sep + b);
    CollapseLettersPrefix(a, sep + b);
    CollapseRun(sep, b);
    assert a + ("_" + CollapseNonLetters(b)) == a + "_" + CollapseNonLetters(b);
  }

  /** A substitution result with no `_` at either end is the stem. */
  lemma StemOfCollapsed(query: string, c: string)
    requires CollapseNonLetters(query) == c
    requires c != [] && c[0] != '_' && c[|c| - 1] != '_'
    ensures Stem(query) == c
  {
    assert StripLeading(c) == c;
    assert StripTrailing(c) == c;
  }

  /** Two words with non-letters between them, such as `foo bar` or `foo, bar`,
      are joined by one `_`: `foo_bar`. */
  lemma TwoWordStem(a: string, sep: string, b: string)
    requires a != [] && AllLetters(a) && b != [] && AllLetters(b) && sep != [] && NoLetters(sep)
    ensures Stem(a + sep + b) == a + "_" + b
  {
    var c := a + "_" + b;
    CollapseLetters(b);
    CollapseSplit(a, sep, b);
    assert c[0] == a[0] && c[|c| - 1] == b[|b| - 1];
    StemOfCollapsed(a + sep + b, c);
  }

  /** A query of a `#` and letters, such as `#IDEA`, has the letters as its stem. */
  lemma HashQueryStem(q: string)
    requires q != [] && AllLetters(q)
    ensures Stem("#" + q) == q
  {
    var s := "#" + q;
    assert s[0] == '#' && !IsLetter('#') && s[1..] == q;
    assert DropNonLetters(s) == q;
    CollapseLetters(q);
    var c := "_" + q;
    assert CollapseNonLetters(s) == c;
    assert c[0] == '_' && c[1..] == q;
    assert StripLeading(c) == q;
    assert StripTrailing(q) == q;
  }

  /** Under the default limit, a `#` and up to 110 letters give the letters, `_`
      and the two eight-character dates. */
  lemma HashQueryFilename(q: string, startDate: string, endDate: string)
    requires q != [] && AllLetters(q) && |q| <= 110
    requires |startDate| == 8 && |endDate| == 8
    ensures FilenameFromQuery("#" + q, startDate, endDate, DEFAULT_MAX_FILENAME_LENGTH)
         == q + "_" + startDate + "_" + endDate
  {
    var dates := startDate + "_" + endDate;
    HashQueryStem(q);
    ShortStemWithDates(q, startDate, endDate);
  }

  /** A stem short enough for the dates is kept whole under the default limit. */
  lemma ShortStemWithDates(stem: string, startDate: string, endDate: string)
    requires |stem| <= 110 && |startDate| == 8 && |endDate| == 8
    ensures WithDates(stem, startDate + "_" + endDate, DEFAULT_MAX_FILENAME_LENGTH)
         == stem + "_" + startDate + "_" + endDate
  {
    var dates := startDate + "_" + endDate;
    var kept := PyPrefix(stem, DEFAULT_MAX_FILENAME_LENGTH - |dates|);
    assert |kept| == |stem|;
    assert kept == stem;
    Append3(stem + "_", startDate + "_", endDate);
    Append3(stem + "_", startDate, "_");
  }

  lemma Append3(a: string, b: string, c: string)
    ensures a + (b + c) == a + b + c
  {
  }
}
