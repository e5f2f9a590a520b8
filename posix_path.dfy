/** String semantics of the two POSIX `os.path` helpers that the download gate
    relies on: `join` of two components and `commonprefix` of a pair of paths.
    Paths are plain strings; nothing here looks at a file system. */
module PosixPath {

  /** The POSIX path separator. */
  const Sep: char := '/'

  predicate IsAbsolute(p: string) {
    |p| > 0 && p[0] == Sep
  }

  /** `os.path.join(a, b)`: an absolute `b` throws `a` away; otherwise `b` is
      appended to `a`, with one separator in between unless `a` is empty or
      already ends with a separator. */
  function Join(a: string, b: string): (r: string)
    ensures IsAbsolute(b) ==> r == b
    ensures !IsAbsolute(b) ==> a <= r && |r| - |a| - |b| in {0, 1}
    ensures !IsAbsolute(b) && |r| == |a| + |b| + 1 ==> r[|a|] == Sep
    ensures !IsAbsolute(b) && |a| > 0 && a[|a| - 1] != Sep ==> |r| == |a| + |b| + 1
    ensures !IsAbsolute(b) && (a == [] || a[|a| - 1] == Sep) ==> r == a + b
    ensures |b| <= |r| && r[|r| - |b|..] == b
  {
    if IsAbsolute(b) then b
    else if a == [] || a[|a| - 1] == Sep then a + b
    else a + [Sep] + b
  }

  /** The longest common prefix of two strings, character by character. */
  function CommonPrefix(a: string, b: string): (r: string)
    ensures r <= a && r <= b
    ensures |r| == |a| || |r| == |b| || a[|r|] != b[|r|]
  {
    if a == [] || b == [] || a[0] != b[0] then []
    else [a[0]] + CommonPrefix(a[1..], b[1..])
  }

  /** No common prefix is longer than `CommonPrefix(a, b)`. */
  lemma CommonPrefixLongest(a: string, b: string, p: string)
    requires p <= a && p <= b
    ensures p <= CommonPrefix(a, b)
  {
  }

  /** A common prefix that cannot be extended is THE common prefix. */
  lemma CommonPrefixUnique(a: string, b: string, r: string)
    requires r <= a && r <= b
    requires |r| == |a| || |r| == |b| || a[|r|] != b[|r|]
    ensures r == CommonPrefix(a, b)
  {
    var c := CommonPrefix(a, b);
    CommonPrefixLongest(a, b, r);
    assert r == c[..|r|] == c;
  }

  /** The order of the two paths does not matter. */
  lemma CommonPrefixSymmetric(a: string, b: string)
    ensures CommonPrefix(a, b) == CommonPrefix(b, a)
  {
    CommonPrefixUnique(b, a, CommonPrefix(a, b));
  }

  /** The common prefix of `p` and `root` is the whole of `root` exactly when
      `root` is a character-wise prefix of `p`; path components play no part. */
  lemma CommonPrefixIsWholeIff(p: string, root: string)
    ensures CommonPrefix(p, root) == root <==> root <= p
  {
    if root <= p {
      CommonPrefixLongest(p, root, root);
    }
  }

  /** Python's `<` on `str`: lexicographic by code point, where a proper
      prefix comes first. No string is below itself. */
  predicate LexLess(a: string, b: string)
    ensures LexLess(a, b) ==> a != b
  {
    if b == [] then false
    else if a == [] then true
    else if a[0] != b[0] then a[0] < b[0]
    else LexLess(a[1..], b[1..])
  }

  /** A proper prefix is below the string it starts. */
  lemma {:induction false} ProperPrefixIsLess(x: string, y: string)
    ensures |x| < |y| && x == y[..|x|] ==> LexLess(x, y)
  {
    if x != [] && |x| < |y| && x == y[..|x|] {
      assert x[1..] == y[1..][..|x| - 1];
      ProperPrefixIsLess(x[1..], y[1..]);
    }
  }

  /** `<` never holds both ways. */
  lemma {:induction false} LexLessAsymmetric(a: string, b: string)
    ensures LexLess(a, b) ==> !LexLess(b, a)
  {
    if a != [] && b != [] && a[0] == b[0] {
      LexLessAsymmetric(a[1..], b[1..]);
    }
  }

  /** Two different strings are ordered one way or the other. */
  lemma {:induction false} LexLessTotal(a: string, b: string)
    ensures a != b ==> LexLess(a, b) || LexLess(b, a)
  {
    if a != [] && b != [] && a[0] == b[0] {
      LexLessTotal(a[1..], b[1..]);
      if a[1..] == b[1..] {
        assert a == [a[0]] + a[1..] && b == [b[0]] + b[1..];
      }
    }
  }

  /** `os.path.commonprefix((a, b))` as CPython computes it: take the smallest
      and the largest of the two strings (`min` and `max`, which keep the first
      of two equal candidates), scan the smallest and cut it at the first
      position where the largest differs. Ordering the pair first is what
      makes `s2[i]` safe: the largest is never a proper prefix of the
      smallest. */
  method CommonPrefixOfPair(a: string, b: string) returns (r: string)
    ensures r <= a && r <= b
    ensures r == CommonPrefix(a, b)
  {
    var s1 := if LexLess(b, a) then b else a;
    var s2 := if LexLess(a, b) then b else a;
    LexLessAsymmetric(a, b);
    LexLessTotal(a, b);
    assert (s1 == a && s2 == b) || (s1 == b && s2 == a);
    ProperPrefixIsLess(s2, s1);
    var i := 0;
    while i < |s1|
      invariant i <= |s1| && i <= |s2|
      invariant s1[..i] == s2[..i]
    {
      if s1[i] != s2[i] {
        r := s1[..i];
        CommonPrefixUnique(a, b, r);
        return;
      }
      i := i + 1;
    }
    r := s1;
    CommonPrefixUnique(a, b, r);
  }
}
