/**
 * The string operations the cache format relies on: `String.split` with a
 * quoted (literal) delimiter and limit 0, `TextUtils.join`, `startsWith` and
 * `equalsIgnoreCase`, together with the facts about them that make the
 * cache's text format decodable.
 */
module Text {
  import opened Wrappers

  /** `d` occurs in `s` starting at index `k`. */
  predicate MatchesAt(s: string, k: nat, d: string) {
    k + |d| <= |s| && s[k..k + |d|] == d
  }

  ghost predicate Contains(s: string, d: string) {
    exists k: nat :: MatchesAt(s, k, d)
  }

  /** The leftmost occurrence of `d` in `s` at or after index `i`. */
  function IndexFrom(s: string, d: string, i: nat): (r: Option<nat>)
    requires |d| > 0 && i <= |s|
    ensures r.Some? ==> i <= r.value && MatchesAt(s, r.value, d)
    ensures forall k: nat :: i <= k && (r.None? || k < r.value) ==> !MatchesAt(s, k, d)
    decreases |s| - i
  {
    if i + |d| > |s| then None
    else if s[i..i + |d|] == d then Some(i)
    else IndexFrom(s, d, i + 1)
  }

  /** All pieces of `s` between leftmost, non-overlapping occurrences of `d`. */
  function SplitAll(s: string, d: string): (parts: seq<string>)
    requires |d| > 0
    ensures |parts| >= 1
    decreases |s|
  {
    match IndexFrom(s, d, 0)
    case None => [s]
    case Some(i) => [s[..i]] + SplitAll(s[i + |d|..], d)
  }

  function DropTrailingEmpty(parts: seq<string>): (r: seq<string>)
    ensures |r| <= |parts| && r == parts[..|r|]
    ensures r == [] || r[|r| - 1] != ""
    ensures forall i :: |r| <= i < |parts| ==> parts[i] == ""
  {
    if |parts| > 0 && parts[|parts| - 1] == "" then DropTrailingEmpty(parts[..|parts| - 1])
    else parts
  }

  /**
   * `s.split(Pattern.quote(d))`: when `d` does not occur the result is `[s]`
   * (even for the empty string); otherwise the pieces, with trailing empty
   * pieces removed. A leading empty piece is kept.
   */
  function Split(s: string, d: string): (parts: seq<string>)
    requires |d| > 0
  {
    if IndexFrom(s, d, 0).None? then [s] else DropTrailingEmpty(SplitAll(s, d))
  }

  /** `TextUtils.join(d, parts)`. */
  function Join(parts: seq<string>, d: string): string {
    if |parts| == 0 then ""
    else if |parts| == 1 then parts[0]
    else parts[0] + d + Join(parts[1..], d)
  }

  predicate StartsWith(s: string, prefix: string) {
    |prefix| <= |s| && s[..|prefix|] == prefix
  }

  /** Case folding of the ASCII letters; every other character folds to itself. */
  function FoldCase(c: char): char {
    if 'A' <= c <= 'Z' then (c as int - 'A' as int + 'a' as int) as char else c
  }

  /** `String.equalsIgnoreCase`, restricted to ASCII case folding. */
  predicate EqualsIgnoreCase(a: string, b: string) {
    |a| == |b| && forall i :: 0 <= i < |a| ==> FoldCase(a[i]) == FoldCase(b[i])
  }

  /**
   * `p` may stand before an occurrence of `d` without the split finding an
   * earlier one: no occurrence of `d` in `p + d` starts inside `p`.
   */
  ghost predicate Clean(p: string, d: string) {
    forall k: nat :: k < |p| ==> !MatchesAt(p + d, k, d)
  }

  /** A run of five copies of `c`; both cache delimiters have this shape. */
  function Run(c: char): (d: string)
    ensures |d| == 5 && forall j :: 0 <= j < 5 ==> d[j] == c
  {
    [c, c, c, c, c]
  }

  lemma SliceOfPrefix(a: string, b: string, i: nat, j: nat)
    requires i <= j <= |a|
    ensures (a + b)[i..j] == a[i..j]
  {
  }

  lemma SliceOfSuffix(a: string, b: string, i: nat, j: nat)
    requires |a| <= i <= j <= |a| + |b|
    ensures (a + b)[i..j] == b[i - |a|..j - |a|]
  {
  }

  /** Every character of an occurrence of a run is the run's character. */
  lemma RunCharacters(s: string, k: nat, c: char, j: nat)
    requires MatchesAt(s, k, Run(c)) && k <= j < k + 5
    ensures s[j] == c
  {
    assert s[k..k + 5][j - k] == s[j];
  }

  /** Splitting a join of clean pieces gives the pieces back. */
  lemma {:induction false} SplitAllJoin(parts: seq<string>, d: string)
    requires |d| > 0 && |parts| >= 1
    requires forall i :: 0 <= i < |parts| - 1 ==> Clean(parts[i], d)
    requires !Contains(parts[|parts| - 1], d)
    ensures SplitAll(Join(parts, d), d) == parts
    decreases |parts|
  {
    if |parts| == 1 {
      assert IndexFrom(parts[0], d, 0).None?;
    } else {
      var p := parts[0];
      var rest := Join(parts[1..], d);
      var s := Join(parts, d);
      assert s == (p + d) + rest;
      SplitAtFirst(p, d, rest);
      forall i | 0 <= i < |parts[1..]| - 1
        ensures Clean(parts[1..][i], d)
      {
        assert parts[1..][i] == parts[i + 1];
      }
      SplitAllJoin(parts[1..], d);
    }
  }

  /** Splitting `p + d + rest` with `p` clean cuts off `p` and goes on with `rest`. */
  lemma SplitAtFirst(p: string, d: string, rest: string)
    requires |d| > 0 && Clean(p, d)
    ensures SplitAll((p + d) + rest, d) == [p] + SplitAll(rest, d)
  {
    var s := (p + d) + rest;
    assert MatchesAt(s, |p|, d) by {
      SliceOfPrefix(p + d, rest, |p|, |p| + |d|);
    }
    forall k: nat | k < |p|
      ensures !MatchesAt(s, k, d)
    {
      assert !MatchesAt(p + d, k, d);
      SliceOfPrefix(p + d, rest, k, k + |d|);
    }
    var r := IndexFrom(s, d, 0);
    assert r == Some(|p|);
    SliceOfSuffix(p + d, rest, |p| + |d|, |s|);
    assert s[|p| + |d|..] == rest;
    SliceOfPrefix(p + d, rest, 0, |p|);
    assert s[..|p|] == p;
  }

  /** `Split` inverts `Join` on clean pieces whose last piece is non-empty. */
  lemma SplitJoin(parts: seq<string>, d: string)
    requires |d| > 0 && |parts| >= 1
    requires forall i :: 0 <= i < |parts| - 1 ==> Clean(parts[i], d)
    requires !Contains(parts[|parts| - 1], d)
    requires |parts| == 1 || parts[|parts| - 1] != ""
    ensures Split(Join(parts, d), d) == parts
  {
    SplitAllJoin(parts, d);
    if |parts| == 1 {
      assert IndexFrom(parts[0], d, 0).None?;
    } else {
      var s := Join(parts, d);
      assert s == (parts[0] + d) + Join(parts[1..], d);
      SliceOfPrefix(parts[0] + d, Join(parts[1..], d), |parts[0]|, |parts[0]| + |d|);
      assert MatchesAt(s, |parts[0]|, d);
      assert IndexFrom(s, d, 0).Some?;
    }
  }

  /**
   * A string with no run of `c` keeps none when a separator free of `c` is
   * placed between it and another such string.
   */
  lemma NoRunAcrossSeparator(a: string, m: string, b: string, c: char)
    requires !Contains(a, Run(c)) && !Contains(b, Run(c))
    requires |m| >= 1 && forall j :: 0 <= j < |m| ==> m[j] != c
    ensures !Contains(a + m + b, Run(c))
  {
    var s := a + m + b;
    forall k: nat | MatchesAt(s, k, Run(c))
      ensures false
    {
      if k + 5 <= |a| {
        assert s == a + (m + b);
        SliceOfPrefix(a, m + b, k, k + 5);
        assert MatchesAt(a, k, Run(c));
      } else if k < |a| + |m| {
        var j := if k <= |a| then |a| else k;
        RunCharacters(s, k, c, j);
      } else {
        SliceOfSuffix(a + m, b, k, k + 5);
        assert MatchesAt(b, k - |a| - |m|, Run(c));
      }
    }
  }

  /** A piece with no run of `c` that does not end in `c` is clean for `Run(c)`. */
  lemma CleanBeforeRun(p: string, c: char)
    requires !Contains(p, Run(c))
    requires p == [] || p[|p| - 1] != c
    ensures Clean(p, Run(c))
  {
    forall k: nat | k < |p| && MatchesAt(p + Run(c), k, Run(c))
      ensures false
    {
      if k + 5 <= |p| {
        SliceOfPrefix(p, Run(c), k, k + 5);
        assert MatchesAt(p, k, Run(c));
      } else {
        RunCharacters(p + Run(c), k, c, |p| - 1);
      }
    }
  }

  /** A string shorter than a run contains none. */
  lemma ShortHasNoRun(s: string, c: char)
    requires |s| < 5
    ensures !Contains(s, Run(c))
  {
  }

  function Digit(d: nat): (c: char)
    requires d < 10
    ensures '0' <= c <= '9'
  {
    ('0' as int + d) as char
  }

  /** `Long.toString(n)` for a non-negative `n`: its decimal digits, without leading zeros. */
  function LongToString(n: nat): (s: string)
    ensures 1 <= |s|
    ensures forall i :: 0 <= i < |s| ==> '0' <= s[i] <= '9'
    ensures n < 10 <==> |s| == 1
  {
    if n < 10 then [Digit(n)] else LongToString(n / 10) + [Digit(n % 10)]
  }

  /** Distinct numbers are written differently, even when case is ignored. */
  lemma {:induction false} LongToStringInjective(a: nat, b: nat)
    requires EqualsIgnoreCase(LongToString(a), LongToString(b))
    ensures a == b
  {
    var sa, sb := LongToString(a), LongToString(b);
    forall i | 0 <= i < |sa|
      ensures sa[i] == sb[i]
    {
      assert FoldCase(sa[i]) == FoldCase(sb[i]);
    }
    if a >= 10 && b >= 10 {
      assert LongToString(a / 10) == sa[..|sa| - 1];
      assert LongToString(b / 10) == sb[..|sb| - 1];
      assert EqualsIgnoreCase(LongToString(a / 10), LongToString(b / 10));
      LongToStringInjective(a / 10, b / 10);
      assert sa[|sa| - 1] == sb[|sb| - 1];
    } else if a < 10 && b < 10 {
      assert sa[0] == sb[0];
    }
  }

  lemma EqualsIgnoreCaseReflexive(a: string)
    ensures EqualsIgnoreCase(a, a)
  {
  }
}
