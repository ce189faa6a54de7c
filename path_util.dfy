/** Joining the webserver's document root with a request path
    (`path_cat`): one trailing separator of the root is dropped, the path is
    appended, and the result is normalised for the platform. On Windows
    every '/' becomes '\' and doubled backslashes are merged; elsewhere
    doubled slashes are merged. Merging is one left-to-right pass over
    non-overlapping pairs, so a run of three separators leaves two. */
module PathUtil {

  /** The text contains the parent step "..". */
  predicate HasParentStep(s: string)
  {
    exists i :: 0 <= i < |s| - 1 && s[i] == '.' && s[i + 1] == '.'
  }

  /** The text contains the separator `c` twice in a row. */
  predicate HasDoubled(s: string, c: char)
  {
    exists i :: 0 <= i < |s| - 1 && s[i] == c && s[i + 1] == c
  }

  /** Replacing every non-overlapping `cc`, from the left, by `c`. */
  function MergePairs(s: string, c: char): (r: string)
    ensures |r| <= |s|
    ensures |s| > 0 ==> |r| > 0 && r[0] == s[0]
    ensures forall x :: x in r ==> x in s
    decreases |s|
  {
    if |s| < 2 then s
    else if s[0] == c && s[1] == c then [c] + MergePairs(s[2..], c)
    else [s[0]] + MergePairs(s[1..], c)
  }

  /** A text without a doubled separator is left as it is. */
  lemma {:induction false} MergeWithoutPairs(s: string, c: char)
    requires !HasDoubled(s, c)
    ensures MergePairs(s, c) == s
    decreases |s|
  {
    if |s| >= 2 {
      assert !(s[0] == c && s[1] == c);
      forall i | 0 <= i < |s[1..]| - 1 ensures !(s[1..][i] == c && s[1..][i + 1] == c) {
        assert s[1..][i] == s[i + 1] && s[1..][i + 1] == s[i + 2];
      }
      MergeWithoutPairs(s[1..], c);
      assert s == [s[0]] + s[1..];
    }
  }

  /** Merging separators never forms a parent step: when `c` is not a dot,
      a text without ".." gives a text without "..". */
  lemma {:induction false} MergeKeepsNoParentStep(s: string, c: char)
    requires c != '.' && !HasParentStep(s)
    ensures !HasParentStep(MergePairs(s, c))
    decreases |s|
  {
    if |s| >= 2 {
      var r := MergePairs(s, c);
      var rest := if s[0] == c && s[1] == c then s[2..] else s[1..];
      var d := |s| - |rest|;
      forall i | 0 <= i < |rest| - 1 ensures !(rest[i] == '.' && rest[i + 1] == '.') {
        assert rest[i] == s[i + d] && rest[i + 1] == s[i + d + 1];
      }
      MergeKeepsNoParentStep(rest, c);
      var mr := MergePairs(rest, c);
      assert r == [r[0]] + mr;
      forall i | 0 <= i < |r| - 1 ensures !(r[i] == '.' && r[i + 1] == '.') {
        if i == 0 {
          assert r[1] == mr[0] == rest[0];
          if d == 1 {
            assert r[0] == s[0] && rest[0] == s[1];
          }
        } else {
          assert r[i] == mr[i - 1] && r[i + 1] == mr[i];
        }
      }
    }
  }

  /** `n` copies of `c`. */
  function Run(c: char, n: nat): (r: string)
    ensures |r| == n
  {
    if n == 0 then [] else [c] + Run(c, n - 1)
  }

  /** One pass only: a run of `n` separators becomes `(n + 1) / 2` of them
      (three become two, not one), and the text after the run is merged on
      its own. */
  lemma {:induction false} RunHalves(c: char, n: nat, t: string)
    requires |t| == 0 || t[0] != c
    ensures MergePairs(Run(c, n) + t, c) == Run(c, (n + 1) / 2) + MergePairs(t, c)
    decreases n
  {
    if n < 2 {
      ShortRunKept(c, n, t);
    } else {
      RunHalves(c, n - 2, t);
      PairStep(c, n, t);
    }
  }

  /** No run, or a lone separator: nothing to merge at the front. */
  lemma ShortRunKept(c: char, n: nat, t: string)
    requires n < 2 && (|t| == 0 || t[0] != c)
    ensures MergePairs(Run(c, n) + t, c) == Run(c, (n + 1) / 2) + MergePairs(t, c)
  {
    var m := MergePairs(t, c);
    if n == 0 {
      assert Run(c, n) + t == t;
      assert Run(c, 0) + m == m;
    } else {
      assert Run(c, n) + t == [c] + t;
      MergeLoneSeparator(c, t);
      assert Run(c, 1) == [c];
    }
  }

  /** The leading pair merges into one separator, and the run two shorter
      is merged as before. */
  lemma PairStep(c: char, n: nat, t: string)
    requires n >= 2
    requires MergePairs(Run(c, n - 2) + t, c) == Run(c, (n - 1) / 2) + MergePairs(t, c)
    ensures MergePairs(Run(c, n) + t, c) == Run(c, (n + 1) / 2) + MergePairs(t, c)
  {
    var m := MergePairs(t, c);
    var k := (n - 1) / 2;
    assert k + 1 == (n + 1) / 2;
    MergeLeadingPair(c, n, t);
    RunCons(c, k);
    assert [c] + (Run(c, k) + m) == ([c] + Run(c, k)) + m;
  }

  lemma MergeLoneSeparator(c: char, t: string)
    requires |t| == 0 || t[0] != c
    ensures MergePairs([c] + t, c) == [c] + MergePairs(t, c)
  {
    if |t| > 0 {
      assert ([c] + t)[1] == t[0] && ([c] + t)[1..] == t;
    }
  }

  lemma MergeLeadingPair(c: char, n: nat, t: string)
    requires n >= 2
    ensures MergePairs(Run(c, n) + t, c) == [c] + MergePairs(Run(c, n - 2) + t, c)
  {
    var s := Run(c, n) + t;
    assert Run(c, n) == [c, c] + Run(c, n - 2);
    assert s[0] == c && s[1] == c && s[2..] == Run(c, n - 2) + t;
  }

  lemma RunCons(c: char, k: nat)
    ensures [c] + Run(c, k) == Run(c, k + 1)
  {
  }

  /** Every '/' turned into the Windows separator. */
  function Backslashed(s: string): (r: string)
    ensures |r| == |s|
    ensures forall i :: 0 <= i < |s| ==> r[i] == if s[i] == '/' then '\\' else s[i]
  {
    seq(|s|, i requires 0 <= i < |s| => if s[i] == '/' then '\\' else s[i])
  }

  /** Converting separators leaves no '/', changes nothing else, and a
      second conversion changes nothing. */
  lemma BackslashedNormalises(s: string)
    ensures '/' !in Backslashed(s)
    ensures '/' !in s ==> Backslashed(s) == s
    ensures Backslashed(Backslashed(s)) == Backslashed(s)
    ensures forall c | c != '/' && c != '\\' :: multiset(Backslashed(s))[c] == multiset(s)[c]
    ensures multiset(Backslashed(s))['\\'] == multiset(s)['/'] + multiset(s)['\\']
  {
    BackslashedKeepsCounts(s);
  }

  lemma {:induction false} BackslashedKeepsCounts(s: string)
    ensures forall c | c != '/' && c != '\\' :: multiset(Backslashed(s))[c] == multiset(s)[c]
    ensures multiset(Backslashed(s))['\\'] == multiset(s)['/'] + multiset(s)['\\']
  {
    if |s| > 0 {
      var n := |s| - 1;
      BackslashedKeepsCounts(s[..n]);
      assert Backslashed(s) == Backslashed(s[..n]) + [Backslashed(s)[n]];
      assert s == s[..n] + [s[n]];
    }
  }

  /** The path `path_cat` returns, platform by platform. */
  function PathCat(base: string, path: string, windows: bool): string
  {
    if |base| == 0 then path
    else
      var sep := if windows then '\\' else '/';
      var trimmed := if base[|base| - 1] == sep then base[..|base| - 1] else base;
      if windows then MergePairs(Backslashed(trimmed + path), '\\')
      else MergePairs(trimmed + path, '/')
  }

  /** `path_cat`: the in-place separator loop on Windows, then the merge. */
  method Join(base: string, path: string, windows: bool) returns (result: string)
    ensures result == PathCat(base, path, windows)
  {
    if |base| == 0 {
      return path;
    }
    result := base;
    var sep := if windows then '\\' else '/';
    if result[|result| - 1] == sep {
      result := result[..|result| - 1];
    }
    result := result + path;
    if windows {
      var i := 0;
      ghost var joined := result;
      while i < |result|
        invariant 0 <= i <= |result| == |joined|
        invariant forall k :: 0 <= k < i ==> result[k] == if joined[k] == '/' then '\\' else joined[k]
        invariant forall k :: i <= k < |result| ==> result[k] == joined[k]
      {
        if result[i] == '/' {
          result := result[i := '\\'];
        }
        i := i + 1;
      }
      assert result == Backslashed(joined);
      result := MergePairs(result, '\\');
    } else {
      result := MergePairs(result, '/');
    }
  }

  /** An empty root leaves the path as it is, even its slashes. */
  lemma EmptyBase(path: string, windows: bool)
    ensures PathCat("", path, windows) == path
  {
  }

  /** The joined path is never longer than root and path together. */
  lemma PathCatLength(base: string, path: string, windows: bool)
    ensures |PathCat(base, path, windows)| <= |base| + |path|
  {
  }

  /** On Windows a non-empty root gives a path without any '/'. */
  lemma WindowsHasNoSlash(base: string, path: string)
    requires |base| > 0
    ensures '/' !in PathCat(base, path, true)
  {
    var sep := '\\';
    var trimmed := if base[|base| - 1] == sep then base[..|base| - 1] else base;
    var b := Backslashed(trimmed + path);
    assert '/' !in b by {
      forall i | 0 <= i < |b| ensures b[i] != '/' {
      }
    }
  }

  /** A root and a path that are already clean are joined as they are:
      no trailing and no doubled '/' in the root, a path starting with '/'
      and without doubled '/'. */
  lemma CleanJoin(base: string, path: string)
    requires |base| > 0 && base[|base| - 1] != '/' && !HasDoubled(base, '/')
    requires |path| > 0 && path[0] == '/' && !HasDoubled(path, '/')
    ensures PathCat(base, path, false) == base + path
  {
    var s := base + path;
    forall i | 0 <= i < |s| - 1 ensures !(s[i] == '/' && s[i + 1] == '/') {
      if i + 1 < |base| {
        assert s[i] == base[i] && s[i + 1] == base[i + 1];
      } else if i == |base| - 1 {
        assert s[i] == base[i];
      } else {
        assert s[i] == path[i - |base|] && s[i + 1] == path[i - |base| + 1];
      }
    }
    MergeWithoutPairs(s, '/');
  }

  /** Exactly one trailing separator of the root is dropped before
      joining: a root ending in the platform's separator joins like the root
      without it. */
  lemma TrailingSeparatorDropped(base: string, path: string, windows: bool)
    requires |base| > 1 && base[|base| - 1] == (if windows then '\\' else '/')
    requires base[|base| - 2] != (if windows then '\\' else '/')
    ensures PathCat(base, path, windows) == PathCat(base[..|base| - 1], path, windows)
  {
  }

  /** Joining does not create a parent step: a root and a path without
      "..", the path not starting with a dot (a request path starts with
      '/'), give a path without "..". */
  lemma PathCatKeepsNoParentStep(base: string, path: string, windows: bool)
    requires !HasParentStep(base) && !HasParentStep(path)
    requires |path| == 0 || path[0] != '.'
    ensures !HasParentStep(PathCat(base, path, windows))
  {
    if |base| > 0 {
      var sep := if windows then '\\' else '/';
      var trimmed := if base[|base| - 1] == sep then base[..|base| - 1] else base;
      var s := trimmed + path;
      forall i | 0 <= i < |trimmed| - 1 ensures !(trimmed[i] == '.' && trimmed[i + 1] == '.') {
        assert trimmed[i] == base[i] && trimmed[i + 1] == base[i + 1];
      }
      if windows {
        JoinNoParentStep(trimmed, path);
        BackslashedKeepsNoParentStep(s);
        MergeKeepsNoParentStep(Backslashed(s), '\\');
      } else {
        JoinNoParentStep(trimmed, path);
        MergeKeepsNoParentStep(s, '/');
      }
    }
  }

  lemma BackslashedKeepsNoParentStep(s: string)
    requires !HasParentStep(s)
    ensures !HasParentStep(Backslashed(s))
  {
    var b := Backslashed(s);
    forall i | 0 <= i < |b| - 1 ensures !(b[i] == '.' && b[i + 1] == '.') {
      assert s[i] != '.' || s[i + 1] != '.';
    }
  }

  /** Two texts without ".." join into one, unless the first ends and the
      second starts with a dot. */
  lemma JoinNoParentStep(a: string, b: string)
    requires !HasParentStep(a) && !HasParentStep(b)
    requires |a| == 0 || |b| == 0 || a[|a| - 1] != '.' || b[0] != '.'
    ensures !HasParentStep(a + b)
  {
    var s := a + b;
    forall i | 0 <= i < |s| - 1 ensures !(s[i] == '.' && s[i + 1] == '.') {
      if i + 1 < |a| {
        assert s[i] == a[i] && s[i + 1] == a[i + 1];
      } else if i >= |a| {
        assert s[i] == b[i - |a|] && s[i + 1] == b[i - |a| + 1];
      } else {
        assert s[i] == a[|a| - 1] && s[i + 1] == b[0];
      }
    }
  }
}
