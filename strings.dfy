/**
 * The parts of Go's `strings`, `path/filepath` and `fmt` packages that the
 * modelled code relies on, over `string` (a sequence of characters).
 */
module Strings {

  /** `pat` occurs in `s` starting at position `i`. */
  predicate OccursAt(s: string, pat: string, i: nat) {
    i + |pat| <= |s| && s[i..i + |pat|] == pat
  }

  /** `pat` occurs somewhere in `s` (Go's `strings.Contains`). */
  predicate Contains(s: string, pat: string) {
    exists i: nat | i <= |s| :: OccursAt(s, pat, i)
  }

  /** First occurrence of `pat` in `s` at or after `i`, or -1. */
  function IndexFrom(s: string, pat: string, i: nat): (r: int)
    requires i <= |s|
    decreases |s| - i
    ensures r == -1 || (i <= r <= |s| && OccursAt(s, pat, r))
    ensures r == -1 ==> forall j: nat :: i <= j ==> !OccursAt(s, pat, j)
    ensures r != -1 ==> forall j: nat :: i <= j < r ==> !OccursAt(s, pat, j)
  {
    if OccursAt(s, pat, i) then i
    else if i == |s| then -1
    else IndexFrom(s, pat, i + 1)
  }

  /** Go's `strings.Index`: the first occurrence of `pat` in `s`, or -1. */
  function Index(s: string, pat: string): (r: int)
    ensures r == -1 <==> !Contains(s, pat)
    ensures r != -1 ==> 0 <= r <= |s| && OccursAt(s, pat, r)
    ensures r != -1 ==> forall j: nat :: j < r ==> !OccursAt(s, pat, j)
  {
    IndexFrom(s, pat, 0)
  }

  /** Index finds an occurrence exactly when it is the first one. */
  lemma IndexIsFirst(s: string, pat: string, k: nat)
    requires OccursAt(s, pat, k)
    requires forall j: nat :: j < k ==> !OccursAt(s, pat, j)
    ensures Index(s, pat) == k
  {
  }

  /**
   * Go's `strings.ReplaceAll` for a non-empty `pat`: every non-overlapping
   * occurrence, scanning from the left, is replaced by `rep`.
   */
  function ReplaceAll(s: string, pat: string, rep: string): string
    requires |pat| > 0
    decreases |s|
  {
    if |s| == 0 then ""
    else if OccursAt(s, pat, 0) then rep + ReplaceAll(s[|pat|..], pat, rep)
    else [s[0]] + ReplaceAll(s[1..], pat, rep)
  }

  /** The number of occurrences ReplaceAll replaces. */
  function Replaced(s: string, pat: string): nat
    requires |pat| > 0
    decreases |s|
  {
    if |s| == 0 then 0
    else if OccursAt(s, pat, 0) then 1 + Replaced(s[|pat|..], pat)
    else Replaced(s[1..], pat)
  }

  lemma OccursShift(c: char, s: string, pat: string, j: nat)
    ensures OccursAt([c] + s, pat, j + 1) <==> OccursAt(s, pat, j)
  {
    if j + 1 + |pat| <= |[c] + s| {
      assert ([c] + s)[j + 1..j + 1 + |pat|] == s[j..j + |pat|];
    }
  }

  lemma OccursDrop(s: string, k: nat, pat: string, j: nat)
    requires k <= |s|
    ensures OccursAt(s[k..], pat, j) <==> OccursAt(s, pat, j + k)
  {
    if j + k + |pat| <= |s| {
      assert s[k..][j..j + |pat|] == s[j + k..j + k + |pat|];
    }
  }

  /** An occurrence fixes the characters it covers. */
  lemma OccursHits(s: string, pat: string, j: nat, k: nat)
    requires OccursAt(s, pat, j) && j <= k < j + |pat|
    ensures s[k] == pat[k - j]
  {
    assert s[j..j + |pat|][k - j] == s[k];
  }

  /** Two strings with the same first `n` characters have the same occurrences inside them. */
  lemma SamePrefixOccurs(s: string, t: string, n: nat, pat: string, j: nat)
    requires n <= |s| && n <= |t| && s[..n] == t[..n]
    requires j + |pat| <= n
    ensures OccursAt(s, pat, j) <==> OccursAt(t, pat, j)
  {
    assert s[j..j + |pat|] == s[..n][j..j + |pat|];
    assert t[j..j + |pat|] == t[..n][j..j + |pat|];
  }

  /** Text in which `pat` never occurs is left unchanged. */
  lemma {:induction false} ReplaceAllAbsent(s: string, pat: string, rep: string)
    requires |pat| > 0
    requires !Contains(s, pat)
    ensures ReplaceAll(s, pat, rep) == s
    ensures Replaced(s, pat) == 0
    decreases |s|
  {
    if |s| > 0 {
      assert !OccursAt(s, pat, 0);
      forall j: nat ensures !OccursAt(s[1..], pat, j) {
        OccursDrop(s, 1, pat, j);
      }
      ReplaceAllAbsent(s[1..], pat, rep);
      assert s == [s[0]] + s[1..];
    }
  }

  /** ReplaceAll changes the length by |rep| - |pat| per replaced occurrence. */
  lemma {:induction false} ReplaceAllLength(s: string, pat: string, rep: string)
    requires |pat| > 0
    ensures |ReplaceAll(s, pat, rep)| == |s| + Replaced(s, pat) * (|rep| - |pat|)
    decreases |s|
  {
    if |s| > 0 {
      if OccursAt(s, pat, 0) {
        var rest := s[|pat|..];
        ReplaceAllLength(rest, pat, rep);
        var d := |rep| - |pat|;
        assert (1 + Replaced(rest, pat)) * d == d + Replaced(rest, pat) * d;
      } else {
        ReplaceAllLength(s[1..], pat, rep);
      }
    }
  }

  /** Where `pat` occurs, ReplaceAll replaces at least one occurrence. */
  lemma {:induction false} ReplacedPositive(s: string, pat: string)
    requires |pat| > 0
    requires Contains(s, pat)
    ensures Replaced(s, pat) > 0
    decreases |s|
  {
    var i: nat :| OccursAt(s, pat, i);
    if !OccursAt(s, pat, 0) {
      OccursDrop(s, 1, pat, i - 1);
      ReplacedPositive(s[1..], pat);
    }
  }

  /**
   * A prefix `p` in which no occurrence of `pat` starts (in `p + q`) is
   * copied through unchanged.
   */
  lemma {:induction false} ReplaceAllKeepsPrefix(p: string, q: string, pat: string, rep: string)
    requires |pat| > 0
    requires forall j: nat :: j < |p| ==> !OccursAt(p + q, pat, j)
    ensures ReplaceAll(p + q, pat, rep) == p + ReplaceAll(q, pat, rep)
    decreases |p|
  {
    if |p| > 0 {
      var s := p + q;
      assert !OccursAt(s, pat, 0);
      assert s[1..] == p[1..] + q;
      forall j: nat | j < |p[1..]| ensures !OccursAt(p[1..] + q, pat, j) {
        OccursDrop(s, 1, pat, j);
      }
      ReplaceAllKeepsPrefix(p[1..], q, pat, rep);
      assert s[0] == p[0];
      calc {
        ReplaceAll(s, pat, rep);
        [s[0]] + ReplaceAll(s[1..], pat, rep);
        [p[0]] + (p[1..] + ReplaceAll(q, pat, rep));
        { assert p == [p[0]] + p[1..]; }
        p + ReplaceAll(q, pat, rep);
      }
    } else {
      assert p + q == q;
    }
  }

  /** Go's `strings.HasPrefix`. */
  predicate HasPrefix(s: string, prefix: string) {
    |prefix| <= |s| && s[..|prefix|] == prefix
  }

  /** Go's `strings.HasSuffix`. */
  predicate HasSuffix(s: string, suffix: string) {
    |suffix| <= |s| && s[|s| - |suffix|..] == suffix
  }

  /** Go's `strings.TrimPrefix`: `s` without `prefix`, or `s` if it lacks it. */
  function TrimPrefix(s: string, prefix: string): (r: string)
    ensures HasPrefix(s, prefix) ==> prefix + r == s
    ensures !HasPrefix(s, prefix) ==> r == s
  {
    if HasPrefix(s, prefix) then s[|prefix|..] else s
  }

  /** Go's `strings.TrimSuffix`: `s` without `suffix`, or `s` if it lacks it. */
  function TrimSuffix(s: string, suffix: string): (r: string)
    ensures HasSuffix(s, suffix) ==> r + suffix == s
    ensures !HasSuffix(s, suffix) ==> r == s
  {
    if HasSuffix(s, suffix) then s[..|s| - |suffix|] else s
  }

  /** Go's `strings.Split` with a one-character separator. */
  function Split(s: string, sep: char): (r: seq<string>)
    ensures |r| >= 1
    decreases |s|
  {
    if |s| == 0 then [""]
    else
      var rest := Split(s[1..], sep);
      if s[0] == sep then [""] + rest
      else [[s[0]] + rest[0]] + rest[1..]
  }

  /** Go's `strings.Join` with a one-character separator. */
  function Join(parts: seq<string>, sep: char): string
    decreases |parts|
  {
    if |parts| == 0 then ""
    else if |parts| == 1 then parts[0]
    else parts[0] + [sep] + Join(parts[1..], sep)
  }

  /** Splitting and re-joining on the same separator gives back the input. */
  lemma {:induction false} SplitJoin(s: string, sep: char)
    ensures Join(Split(s, sep), sep) == s
    decreases |s|
  {
    if |s| > 0 {
      var rest := Split(s[1..], sep);
      SplitJoin(s[1..], sep);
      if s[0] == sep {
        assert Split(s, sep)[1..] == rest;
      } else {
        var r := Split(s, sep);
        assert r[1..] == rest[1..];
        if |rest| == 1 {
          assert Join(r, sep) == [s[0]] + rest[0];
        } else {
          assert Join(r, sep) == [s[0]] + rest[0] + [sep] + Join(rest[1..], sep);
        }
      }
    }
  }

  /** A piece without the separator, then the separator, splits off as one piece. */
  lemma {:induction false} SplitPiece(w: string, u: string, sep: char)
    requires sep !in w
    ensures Split(w + [sep] + u, sep) == [w] + Split(u, sep)
    decreases |w|
  {
    if |w| == 0 {
      assert w + [sep] + u == [sep] + u;
      assert ([sep] + u)[1..] == u;
    } else {
      var s := w + [sep] + u;
      assert s[1..] == w[1..] + [sep] + u;
      SplitPiece(w[1..], u, sep);
      assert [w[0]] + w[1..] == w;
    }
  }

  /** A string without the separator splits into itself alone. */
  lemma {:induction false} SplitWhole(w: string, sep: char)
    requires sep !in w
    ensures Split(w, sep) == [w]
    decreases |w|
  {
    if |w| > 0 {
      SplitWhole(w[1..], sep);
      assert [w[0]] + w[1..] == w;
    }
  }

  /** Joining pieces without the separator and splitting again gives back the pieces. */
  lemma {:induction false} JoinSplit(parts: seq<string>, sep: char)
    requires |parts| >= 1
    requires forall k :: 0 <= k < |parts| ==> sep !in parts[k]
    ensures Split(Join(parts, sep), sep) == parts
    decreases |parts|
  {
    if |parts| == 1 {
      SplitWhole(parts[0], sep);
    } else {
      JoinSplit(parts[1..], sep);
      SplitPiece(parts[0], Join(parts[1..], sep), sep);
      assert [parts[0]] + parts[1..] == parts;
    }
  }

  /** No piece produced by Split contains the separator. */
  lemma {:induction false} SplitPiecesLackSep(s: string, sep: char)
    ensures forall k :: 0 <= k < |Split(s, sep)| ==> sep !in Split(s, sep)[k]
    decreases |s|
  {
    if |s| > 0 {
      SplitPiecesLackSep(s[1..], sep);
    }
  }

  /**
   * The first piece of a split is the longest prefix of `s` without the
   * separator: it is all of `s`, or it is followed in `s` by the separator.
   */
  lemma {:induction false} SplitFirstPiece(s: string, sep: char)
    ensures HasPrefix(s, Split(s, sep)[0])
    ensures sep !in Split(s, sep)[0]
    ensures |Split(s, sep)[0]| == |s| || s[|Split(s, sep)[0]|] == sep
    decreases |s|
  {
    if |s| > 0 {
      SplitFirstPiece(s[1..], sep);
      SplitPiecesLackSep(s, sep);
    }
  }

  /** ASCII upper-casing of one character. */
  function UpperChar(c: char): char {
    if 'a' <= c <= 'z' then (c as int - 32) as char else c
  }

  /** Go's `strings.ToUpper`, restricted to ASCII letters. */
  function ToUpper(s: string): (r: string)
    ensures |r| == |s|
    ensures forall k :: 0 <= k < |s| ==> r[k] == UpperChar(s[k])
  {
    seq(|s|, k requires 0 <= k < |s| => UpperChar(s[k]))
  }

  /** The text after the last '/' of `path`; all of it if there is none. */
  function AfterLastSlash(path: string): (r: string)
    ensures '/' !in r
    ensures HasSuffix(path, r)
    ensures |path| > 0 && path[|path| - 1] != '/' ==> |r| > 0
    ensures '/' !in path ==> r == path
    decreases |path|
  {
    if |path| == 0 || path[|path| - 1] == '/' then ""
    else
      var init := path[..|path| - 1];
      var r := AfterLastSlash(init) + [path[|path| - 1]];
      assert path == init + [path[|path| - 1]];
      r
  }

  /** `path` without its trailing '/' characters. */
  function TrimTrailingSlashes(path: string): (r: string)
    ensures HasPrefix(path, r)
    ensures |r| == 0 || r[|r| - 1] != '/'
    ensures forall k :: |r| <= k < |path| ==> path[k] == '/'
    decreases |path|
  {
    if |path| > 0 && path[|path| - 1] == '/' then TrimTrailingSlashes(path[..|path| - 1]) else path
  }

  /**
   * Go's `filepath.Base` on a slash-separated path: "." for the empty path,
   * "/" for a path of slashes only, otherwise the last element once trailing
   * slashes are dropped.
   */
  function Base(path: string): (r: string)
    ensures |r| > 0
    ensures r == "." || r == "/" || '/' !in r
    ensures '/' !in path && |path| > 0 ==> r == path
  {
    if |path| == 0 then "."
    else
      var trimmed := TrimTrailingSlashes(path);
      if |trimmed| == 0 then "/"
      else
        AfterLastSlash(trimmed)
  }

  /**
   * Go's `filepath.Join` of two elements: an empty element is dropped,
   * otherwise the two are joined by exactly one '/'.
   */
  function JoinPath(dir: string, name: string): (r: string)
    ensures |dir| == 0 ==> r == name
    ensures |dir| > 0 && |name| == 0 ==> r == dir
    ensures |dir| > 0 && |name| > 0 ==> |r| > 0 && (r[0] == dir[0] || r[0] == '/')
  {
    if |dir| == 0 then name
    else if |name| == 0 then dir
    else TrimSuffix(dir, "/") + "/" + TrimPrefix(name, "/")
  }

  /** Decimal digits of a natural number, as `fmt` prints `%d`. */
  function Itoa(n: nat): (r: string)
    ensures |r| >= 1
    ensures forall k :: 0 <= k < |r| ==> '0' <= r[k] <= '9'
    decreases n
  {
    if n < 10 then [('0' as int + n) as char]
    else Itoa(n / 10) + [('0' as int + n % 10) as char]
  }

  /** Different numbers print differently. */
  lemma {:induction false} ItoaInjective(i: nat, j: nat)
    ensures Itoa(i) == Itoa(j) ==> i == j
    decreases i
  {
    if i >= 10 && j >= 10 && Itoa(i) == Itoa(j) {
      var a, b := Itoa(i / 10), Itoa(j / 10);
      assert |a| == |b|;
      assert a == Itoa(i)[..|a|] == Itoa(j)[..|b|] == b;
      ItoaInjective(i / 10, j / 10);
    }
  }

  /** Texts that agree around a middle part agree on the middle part. */
  lemma InfixInjective(head: string, x: string, y: string, tail: string)
    ensures head + x + tail == head + y + tail ==> x == y
  {
    if head + x + tail == head + y + tail {
      assert |x| == |y|;
      assert x == (head + x + tail)[|head|..|head| + |x|];
      assert y == (head + y + tail)[|head|..|head| + |y|];
    }
  }
}
