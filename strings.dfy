/**
 * The handful of `str` operations the source relies on: `split` and `join`
 * on a separator character, `starts_with`/`ends_with`, `strip_suffix`,
 * `replace` of one character by another, and counting leading characters.
 */
module Strings {
  /** `parts.join(sep)`. */
  function Join(parts: seq<string>, sep: char): string
  {
    if |parts| == 0 then ""
    else if |parts| == 1 then parts[0]
    else parts[0] + [sep] + Join(parts[1..], sep)
  }

  /** `s.split(sep)`: the pieces between separators, so always at least one piece. */
  function Split(s: string, sep: char): (parts: seq<string>)
    ensures |parts| >= 1
    decreases |s|
  {
    if |s| == 0 then [""]
    else
      var rest := Split(s[1..], sep);
      if s[0] == sep then [""] + rest else [[s[0]] + rest[0]] + rest[1..]
  }

  /** No piece contains the separator. */
  predicate SepFree(parts: seq<string>, sep: char)
  {
    forall i :: 0 <= i < |parts| ==> sep !in parts[i]
  }

  lemma {:induction false} SplitSepFree(s: string, sep: char)
    ensures SepFree(Split(s, sep), sep)
    decreases |s|
  {
    if |s| > 0 {
      SplitSepFree(s[1..], sep);
    }
  }

  /** Joining the pieces of a split gives the string back. */
  lemma {:induction false} JoinSplit(s: string, sep: char)
    ensures Join(Split(s, sep), sep) == s
    decreases |s|
  {
    if |s| > 0 {
      var rest := Split(s[1..], sep);
      JoinSplit(s[1..], sep);
      if s[0] == sep {
        assert ([""] + rest)[1..] == rest;
      } else {
        var parts := [[s[0]] + rest[0]] + rest[1..];
        if |rest| > 1 {
          assert parts[1..] == rest[1..];
        }
      }
    }
  }

  lemma {:induction false} JoinAppend(xs: seq<string>, ys: seq<string>, sep: char)
    requires |xs| >= 1 && |ys| >= 1
    ensures Join(xs + ys, sep) == Join(xs, sep) + [sep] + Join(ys, sep)
    decreases |xs|
  {
    if |xs| == 1 {
      assert (xs + ys)[1..] == ys;
    } else {
      assert (xs + ys)[1..] == xs[1..] + ys;
      JoinAppend(xs[1..], ys, sep);
    }
  }

  /** Splitting a concatenation around a separator splits each side. */
  lemma {:induction false} SplitAppend(x: string, y: string, sep: char)
    ensures Split(x + [sep] + y, sep) == Split(x, sep) + Split(y, sep)
    decreases |x|
  {
    var s := x + [sep] + y;
    if |x| == 0 {
      assert s[1..] == y;
    } else {
      assert s[1..] == x[1..] + [sep] + y;
      SplitAppend(x[1..], y, sep);
    }
  }

  /** A separator-free string splits into itself. */
  lemma {:induction false} SplitWhole(w: string, sep: char)
    requires sep !in w
    ensures Split(w, sep) == [w]
    decreases |w|
  {
    if |w| > 0 {
      assert w[0] in w;
      assert w == [w[0]] + w[1..];
      SplitWhole(w[1..], sep);
    }
  }

  /** Joining separator-free pieces and splitting again gives the pieces back. */
  lemma {:induction false} SplitJoin(parts: seq<string>, sep: char)
    requires |parts| >= 1 && SepFree(parts, sep)
    ensures Split(Join(parts, sep), sep) == parts
    decreases |parts|
  {
    SplitWhole(parts[0], sep);
    if |parts| > 1 {
      SplitJoin(parts[1..], sep);
      SplitAppend(parts[0], Join(parts[1..], sep), sep);
    }
  }

  predicate EndsWith(s: string, suffix: string)
  {
    |suffix| <= |s| && s[|s| - |suffix|..] == suffix
  }

  /** A non-empty list is its front followed by its last element. */
  lemma DropLast(parts: seq<string>)
    requires |parts| >= 1
    ensures parts == parts[..|parts| - 1] + [parts[|parts| - 1]]
  {
  }

  /** A join begins with the first part when that part is not empty. */
  lemma JoinStartsWithFirst(parts: seq<string>, sep: char)
    requires |parts| >= 1 && |parts[0]| > 0
    ensures |Join(parts, sep)| > 0 && Join(parts, sep)[0] == parts[0][0]
  {
  }

  /** `if s.ends_with(suffix) { s.strip_suffix(suffix) } else { s }`. */
  function StripSuffixIfPresent(s: string, suffix: string): (r: string)
    ensures EndsWith(s, suffix) ==> r + suffix == s
    ensures !EndsWith(s, suffix) ==> r == s
  {
    if EndsWith(s, suffix) then s[..|s| - |suffix|] else s
  }

  /** `s.replace(from, to)` for single characters. */
  function ReplaceChar(s: string, from: char, to: char): (r: string)
    ensures |r| == |s|
    ensures forall i :: 0 <= i < |s| ==> r[i] == if s[i] == from then to else s[i]
  {
    if |s| == 0 then "" else [if s[0] == from then to else s[0]] + ReplaceChar(s[1..], from, to)
  }

  /** `c` repeated `n` times. */
  function Repeat(c: char, n: nat): (r: string)
    ensures |r| == n && forall i :: 0 <= i < n ==> r[i] == c
  {
    if n == 0 then "" else [c] + Repeat(c, n - 1)
  }

  /** Number of leading `c`s, i.e. `s.len() - s.trim_start_matches(c).len()`. */
  function LeadingCount(s: string, c: char): (n: nat)
    ensures n <= |s|
    ensures forall i :: 0 <= i < n ==> s[i] == c
    ensures n < |s| ==> s[n] != c
  {
    if |s| > 0 && s[0] == c then 1 + LeadingCount(s[1..], c) else 0
  }

  /** `s.trim_start_matches(c)`. */
  function TrimStart(s: string, c: char): (r: string)
    ensures Repeat(c, LeadingCount(s, c)) + r == s
  {
    var n := LeadingCount(s, c);
    assert Repeat(c, n) == s[..n];
    s[n..]
  }

  /** Number of occurrences of `c` in `s`. */
  function Count(s: string, c: char): nat
  {
    if |s| == 0 then 0 else (if s[0] == c then 1 else 0) + Count(s[1..], c)
  }
}
