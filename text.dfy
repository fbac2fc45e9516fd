/** The handful of Python `str` operations the PKGBUILD generator relies on:
    `split` on a one-character separator, `join`, `startswith`, slicing off
    the first character and `replace(pat, rep, 1)`.  Each is defined the way
    CPython behaves, and the lemmas below relate them to each other. */
module Text {

  /** `s.startswith(p)` */
  predicate StartsWith(s: string, p: string) {
    |p| <= |s| && s[..|p|] == p
  }

  /** `s[1:]`: everything after the first character; `""` for the empty string. */
  function DropFirst(s: string): (r: string)
    ensures |s| > 0 ==> [s[0]] + r == s
    ensures |s| == 0 ==> r == ""
  {
    if |s| == 0 then "" else s[1..]
  }

  /** `s.split(c)`: the fields between occurrences of `c`, never an empty list
      (`"".split(c) == [""]`, `"a-".split("-") == ["a", ""]`). */
  function Split(s: string, c: char): (r: seq<string>)
    ensures |r| > 0
  {
    if |s| == 0 then [""]
    else if s[0] == c then [""] + Split(s[1..], c)
    else
      var rest := Split(s[1..], c);
      [[s[0]] + rest[0]] + rest[1..]
  }

  /** `sep.join(xs)` */
  function Join(xs: seq<string>, sep: string): string {
    if |xs| == 0 then ""
    else if |xs| == 1 then xs[0]
    else xs[0] + sep + Join(xs[1..], sep)
  }

  /** `s.replace(pat, rep, 1)`: the leftmost occurrence of `pat` replaced by `rep`. */
  function ReplaceFirst(s: string, pat: string, rep: string): string
    requires |pat| > 0
  {
    if |s| < |pat| then s
    else if s[..|pat|] == pat then rep + s[|pat|..]
    else [s[0]] + ReplaceFirst(s[1..], pat, rep)
  }

  /** A string without the separator is a single field. */
  lemma {:induction false} SplitWithoutSeparator(s: string, c: char)
    requires c !in s
    ensures Split(s, c) == [s]
  {
    if s != [] {
      SplitWithoutSeparator(s[1..], c);
      assert [s[0]] + s[1..] == s;
    }
  }

  /** Splitting `a + c + b` where `a` has no `c` yields `a` followed by the fields of `b`. */
  lemma {:induction false} SplitFirstField(a: string, b: string, c: char)
    requires c !in a
    ensures Split(a + [c] + b, c) == [a] + Split(b, c)
  {
    if a == [] {
      assert a + [c] + b == [c] + b;
    } else {
      var s := a + [c] + b;
      assert s[0] == a[0] && s[1..] == a[1..] + [c] + b;
      SplitFirstField(a[1..], b, c);
      assert [a[0]] + a[1..] == a;
    }
  }

  /** `split` has one field more than there are separators. */
  lemma {:induction false} SplitFieldCount(s: string, c: char)
    ensures |Split(s, c)| == multiset(s)[c] + 1
  {
    if s != [] {
      assert s == [s[0]] + s[1..];
      SplitFieldCount(s[1..], c);
    }
  }

  /** `s.split(c)[1]` exists exactly when `c` occurs in `s`. */
  lemma SplitHasSecondField(s: string, c: char)
    ensures |Split(s, c)| >= 2 <==> c in s
  {
    SplitFieldCount(s, c);
  }

  /** Splitting a joined list recovers the list: `sep.join` and `split` are inverse
      when no element contains the separator. */
  lemma {:induction false} SplitJoin(xs: seq<string>, c: char)
    requires |xs| > 0
    requires forall i :: 0 <= i < |xs| ==> c !in xs[i]
    ensures Split(Join(xs, [c]), c) == xs
  {
    if |xs| == 1 {
      SplitWithoutSeparator(xs[0], c);
    } else {
      SplitJoin(xs[1..], c);
      SplitFirstField(xs[0], Join(xs[1..], [c]), c);
    }
  }

  /** The first `|xs|` fields of `Join(xs + ys)` are `xs`, whatever the later
      elements contain: a line-oriented reader sees the leading one-line entries. */
  lemma {:induction false} SplitJoinPrefix(xs: seq<string>, ys: seq<string>, c: char)
    requires |ys| > 0
    requires forall i :: 0 <= i < |xs| ==> c !in xs[i]
    ensures |Split(Join(xs + ys, [c]), c)| >= |xs|
    ensures Split(Join(xs + ys, [c]), c)[..|xs|] == xs
  {
    if |xs| > 0 {
      assert (xs + ys)[1..] == xs[1..] + ys;
      assert Join(xs + ys, [c]) == xs[0] + [c] + Join(xs[1..] + ys, [c]);
      SplitFirstField(xs[0], Join(xs[1..] + ys, [c]), c);
      SplitJoinPrefix(xs[1..], ys, c);
    }
  }

  /** Every field of `s.split(sep)` consists of characters of `s`. */
  lemma {:induction false} SplitFieldsAvoid(s: string, sep: char, c: char)
    requires c !in s
    ensures forall i :: 0 <= i < |Split(s, sep)| ==> c !in Split(s, sep)[i]
  {
    if s != [] {
      SplitFieldsAvoid(s[1..], sep, c);
    }
  }

  /** A joined string contains only characters of its parts and its separator. */
  lemma {:induction false} JoinAvoids(xs: seq<string>, sep: string, c: char)
    requires c !in sep
    requires forall i :: 0 <= i < |xs| ==> c !in xs[i]
    ensures c !in Join(xs, sep)
  {
    if |xs| > 1 {
      JoinAvoids(xs[1..], sep, c);
    }
  }

  /** `replace` introduces no character that neither `s` nor `rep` has. */
  lemma {:induction false} ReplaceFirstAvoids(s: string, pat: string, rep: string, c: char)
    requires |pat| > 0
    requires c !in s && c !in rep
    ensures c !in ReplaceFirst(s, pat, rep)
  {
    if |s| >= |pat| && s[..|pat|] != pat {
      ReplaceFirstAvoids(s[1..], pat, rep, c);
    }
  }

  /** When `s` starts with `pat`, `replace(pat, rep, 1)` swaps exactly that prefix. */
  lemma ReplaceFirstAtStart(s: string, pat: string, rep: string)
    requires |pat| > 0 && StartsWith(s, pat)
    ensures ReplaceFirst(s, pat, rep) == rep + s[|pat|..]
  {
  }
}
