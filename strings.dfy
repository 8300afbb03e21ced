/** The few operations of Rust's `str` that the core relies on: `starts_with`,
    `replace` and `split` on a one-character separator. */
module Strings {

  predicate StartsWith(s: string, prefix: string)
  {
    |prefix| <= |s| && s[..|prefix|] == prefix
  }

  /** `p` occurs somewhere in `s`. */
  predicate Contains(s: string, p: string)
    decreases |s|
  {
    StartsWith(s, p) || (|s| > 0 && Contains(s[1..], p))
  }

  /** `s.replace(pat, rep)`: scans left to right and replaces every
      non-overlapping occurrence of `pat`. The source only ever passes a
      non-empty literal pattern. */
  function Replace(s: string, pat: string, rep: string): string
    requires |pat| > 0
    decreases |s|
  {
    if |s| < |pat| then s
    else if s[..|pat|] == pat then rep + Replace(s[|pat|..], pat, rep)
    else [s[0]] + Replace(s[1..], pat, rep)
  }

  /** The inverse of splitting: the parts glued with `sep` between them. */
  function Join(parts: seq<string>, sep: string): string
  {
    if parts == [] then ""
    else if |parts| == 1 then parts[0]
    else parts[0] + sep + Join(parts[1..], sep)
  }

  /** `s.split(c)`: the maximal runs between occurrences of `c`; always at
      least one part (the empty string splits into `[""]`). */
  function Split(s: string, c: char): (parts: seq<string>)
    ensures |parts| > 0
    decreases |s|
  {
    if s == [] then [""]
    else if s[0] == c then [""] + Split(s[1..], c)
    else
      var rest := Split(s[1..], c);
      [[s[0]] + rest[0]] + rest[1..]
  }

  // ---- Contains ----

  /** An occurrence of `p` needs the first character of `p`. */
  lemma {:induction false} ContainsFirstChar(s: string, p: string)
    requires |p| > 0
    ensures Contains(s, p) ==> p[0] in s
    decreases |s|
  {
    if StartsWith(s, p) {
      assert s[0] == s[..|p|][0];
    } else if |s| > 0 {
      ContainsFirstChar(s[1..], p);
    }
  }

  lemma {:induction false} ContainsExtend(a: string, b: string, p: string)
    ensures Contains(a, p) ==> Contains(a + b, p)
    decreases |a|
  {
    if StartsWith(a, p) {
      assert (a + b)[..|p|] == a[..|p|];
    } else if |a| > 0 {
      assert (a + b)[1..] == a[1..] + b;
      ContainsExtend(a[1..], b, p);
    }
  }

  /** An occurrence of `p + q` is an occurrence of `p`. */
  lemma {:induction false} ContainsPrefixOf(s: string, p: string, q: string)
    ensures Contains(s, p + q) ==> Contains(s, p)
    decreases |s|
  {
    if StartsWith(s, p + q) {
      assert s[..|p|] == s[..|p + q|][..|p|] == (p + q)[..|p|] == p;
    } else if |s| > 0 {
      ContainsPrefixOf(s[1..], p, q);
    }
  }

  // ---- Replace ----

  /** Text without the pattern comes back unchanged. */
  lemma {:induction false} ReplaceUnmatched(s: string, pat: string, rep: string)
    requires |pat| > 0 && !Contains(s, pat)
    ensures Replace(s, pat, rep) == s
    decreases |s|
  {
    if |s| >= |pat| {
      ReplaceUnmatched(s[1..], pat, rep);
    }
  }

  /** A prefix in which no occurrence of `pat` can start is copied as is. */
  lemma {:induction false} ReplaceSkipsPrefix(a: string, x: string, pat: string, rep: string)
    requires |pat| > 0 && |pat| - 1 <= |x|
    requires !Contains(a + x[..|pat| - 1], pat)
    ensures Replace(a + x, pat, rep) == a + Replace(x, pat, rep)
    decreases |a|
  {
    if a == [] {
      assert a + x == x;
    } else {
      var s := a + x;
      var w := a + x[..|pat| - 1];
      assert s[..|pat|] == w[..|pat|];
      assert !StartsWith(w, pat);
      assert s[1..] == a[1..] + x;
      assert w[1..] == a[1..] + x[..|pat| - 1];
      ReplaceSkipsPrefix(a[1..], x, pat, rep);
      assert Replace(s, pat, rep) == [s[0]] + Replace(s[1..], pat, rep);
    }
  }

  /** The same, when the prefix does not even hold the pattern's first character. */
  lemma ReplaceSkipsPlainPrefix(a: string, x: string, pat: string, rep: string)
    requires |pat| > 0 && pat[0] !in a
    ensures Replace(a + x, pat, rep) == a + Replace(x, pat, rep)
  {
    if |x| >= |pat| - 1 {
      NoMatchStartsInPlainPrefix(a, x[..|pat| - 1], pat);
      ReplaceSkipsPrefix(a, x, pat, rep);
    } else {
      NoMatchStartsInPlainPrefix(a, x, pat);
      ContainsShort(x, pat);
      ReplaceUnmatched(a + x, pat, rep);
      ReplaceUnmatched(x, pat, rep);
    }
  }

  lemma {:induction false} NoMatchStartsInPlainPrefix(a: string, y: string, pat: string)
    requires |pat| > 0 && pat[0] !in a && |y| < |pat|
    ensures !Contains(a + y, pat)
    decreases |a|
  {
    if a == [] {
      assert a + y == y;
      ContainsShort(y, pat);
    } else {
      assert (a + y)[0] == a[0] != pat[0];
      assert (a + y)[1..] == a[1..] + y;
      NoMatchStartsInPlainPrefix(a[1..], y, pat);
    }
  }

  lemma {:induction false} ContainsShort(s: string, p: string)
    requires |s| < |p|
    ensures !Contains(s, p)
    decreases |s|
  {
    if |s| > 0 {
      ContainsShort(s[1..], p);
    }
  }

  /** Every occurrence is replaced, not only the first: text made of parts
      separated by `pat`, where no occurrence of `pat` starts inside a part,
      becomes the same parts separated by `rep`. */
  lemma {:induction false} ReplaceEveryOccurrence(parts: seq<string>, pat: string, rep: string)
    requires |pat| > 0 && |parts| > 0
    requires forall i :: 0 <= i < |parts| ==> !Contains(parts[i] + pat[..|pat| - 1], pat)
    ensures Replace(Join(parts, pat), pat, rep) == Join(parts, rep)
    decreases |parts|
  {
    if |parts| == 1 {
      ContainsExtend(parts[0], pat[..|pat| - 1], pat);
      ReplaceUnmatched(parts[0], pat, rep);
    } else {
      var tail := Join(parts[1..], pat);
      assert Join(parts, pat) == parts[0] + (pat + tail);
      assert (pat + tail)[..|pat| - 1] == pat[..|pat| - 1];
      ReplaceSkipsPrefix(parts[0], pat + tail, pat, rep);
      assert (pat + tail)[..|pat|] == pat;
      assert (pat + tail)[|pat|..] == tail;
      assert Replace(pat + tail, pat, rep) == rep + Replace(tail, pat, rep);
      ReplaceEveryOccurrence(parts[1..], pat, rep);
    }
  }

  // ---- Split ----

  /** Splitting loses nothing: joining the parts gives the text back. */
  lemma {:induction false} SplitJoin(s: string, c: char)
    ensures Join(Split(s, c), [c]) == s
    decreases |s|
  {
    if s != [] {
      SplitJoin(s[1..], c);
      var rest := Split(s[1..], c);
      if s[0] != c {
        if |rest| == 1 {
          assert Split(s, c) == [[s[0]] + rest[0]];
        } else {
          assert Split(s, c)[1..] == rest[1..];
          assert Join(rest, [c]) == rest[0] + [c] + Join(rest[1..], [c]);
        }
      } else {
        assert Split(s, c) == [""] + rest;
        assert ([""] + rest)[1..] == rest;
      }
    }
  }

  /** No part holds the separator. */
  lemma {:induction false} SplitPartsFree(s: string, c: char)
    ensures forall i :: 0 <= i < |Split(s, c)| ==> c !in Split(s, c)[i]
    decreases |s|
  {
    if s != [] {
      SplitPartsFree(s[1..], c);
    }
  }

  /** One more part than there are separators. */
  lemma {:induction false} SplitCount(s: string, c: char)
    ensures |Split(s, c)| == multiset(s)[c] + 1
    decreases |s|
  {
    if s != [] {
      SplitCount(s[1..], c);
      assert s == [s[0]] + s[1..];
      assert multiset(s) == multiset([s[0]]) + multiset(s[1..]);
    }
  }

  /** Text without the separator is one part. */
  lemma {:induction false} SplitFree(s: string, c: char)
    requires c !in s
    ensures Split(s, c) == [s]
    decreases |s|
  {
    if s != [] {
      SplitFree(s[1..], c);
      assert s == [s[0]] + s[1..];
    }
  }

  /** A separator-free head is split off as the first part. */
  lemma {:induction false} SplitHead(a: string, b: string, c: char)
    requires c !in a
    ensures Split(a + [c] + b, c) == [a] + Split(b, c)
    decreases |a|
  {
    if a == [] {
      assert a + [c] + b == [c] + b;
      assert ([c] + b)[0] == c && ([c] + b)[1..] == b;
    } else {
      var s := a + [c] + b;
      assert s[0] == a[0] && s[0] != c;
      assert s[1..] == a[1..] + [c] + b;
      SplitHead(a[1..], b, c);
      var rest := Split(s[1..], c);
      assert rest == [a[1..]] + Split(b, c);
      assert Split(s, c) == [[s[0]] + rest[0]] + rest[1..];
      assert [s[0]] + a[1..] == a;
    }
  }

  /** Splitting inverts joining when no part holds the separator. */
  lemma {:induction false} JoinSplit(parts: seq<string>, c: char)
    requires |parts| > 0
    requires forall i :: 0 <= i < |parts| ==> c !in parts[i]
    ensures Split(Join(parts, [c]), c) == parts
    decreases |parts|
  {
    if |parts| == 1 {
      SplitFree(parts[0], c);
    } else {
      JoinSplit(parts[1..], c);
      SplitHead(parts[0], Join(parts[1..], [c]), c);
    }
  }
}
