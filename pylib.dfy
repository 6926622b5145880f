/**
 * The Python built-ins the converter relies on, written out with Python's
 * semantics: zip, str.find, the slices s[:-4] and s[n:], str(n) and str.zfill.
 */
module PyLib {

  function Min(a: int, b: int): (r: int) { if a < b then a else b }
  function Max(a: int, b: int): (r: int) { if a < b then b else a }

  /** zip(a, b): pairs the inputs position by position and stops at the shorter one. */
  function Zip<A, B>(a: seq<A>, b: seq<B>): (z: seq<(A, B)>)
    ensures |z| == Min(|a|, |b|)
    ensures forall i :: 0 <= i < |z| ==> z[i] == (a[i], b[i])
  {
    if a == [] || b == [] then [] else [(a[0], b[0])] + Zip(a[1..], b[1..])
  }

  /** s[:-4]: everything but the last four characters, or "" for a shorter string. */
  function DropLast4(s: string): (r: string)
    ensures r <= s
    ensures |r| == Max(|s| - 4, 0)
  {
    if |s| >= 4 then s[..|s| - 4] else ""
  }

  /** s[n:]: the suffix from position n, or "" when n is past the end. */
  function SliceFrom(s: string, n: nat): (r: string)
    ensures |r| == Max(|s| - n, 0)
    ensures forall i :: 0 <= i < |r| ==> r[i] == s[n + i]
  {
    if n <= |s| then s[n..] else ""
  }

  predicate OccursAt(s: string, p: string, i: int)
  {
    0 <= i && i + |p| <= |s| && s[i..i + |p|] == p
  }

  lemma OccursShift(s: string, p: string, i: int)
    requires 1 <= i && s != []
    ensures OccursAt(s, p, i) <==> OccursAt(s[1..], p, i - 1)
  {
    if i + |p| <= |s| {
      var a, b := s[i..i + |p|], s[1..][i - 1..i - 1 + |p|];
      forall k | 0 <= k < |p| ensures a[k] == b[k] {
        assert a[k] == s[i + k];
        assert b[k] == s[1..][i - 1 + k];
      }
      assert a == b;
    }
  }

  /** s.find(p): the first position where p occurs in s, or -1. */
  function Find(s: string, p: string): (r: int)
    decreases |s|
  {
    if |p| > |s| then -1
    else if s[..|p|] == p then 0
    else
      var k := Find(s[1..], p);
      if k == -1 then -1 else k + 1
  }

  /** Find returns an occurrence, and no occurrence lies before it; -1 means there is none at all. */
  lemma {:induction false} FindSpec(s: string, p: string)
    ensures Find(s, p) == -1 || OccursAt(s, p, Find(s, p))
    ensures forall i :: 0 <= i && (Find(s, p) == -1 || i < Find(s, p)) ==> !OccursAt(s, p, i)
    decreases |s|
  {
    if |p| <= |s| && s[..|p|] != p {
      FindSpec(s[1..], p);
      forall i | 1 <= i ensures OccursAt(s, p, i) <==> OccursAt(s[1..], p, i - 1) {
        OccursShift(s, p, i);
      }
    }
  }

  /** Python's `p in s` spelled the way the script spells it: s.find(p) != -1. */
  predicate Contains(s: string, p: string)
  {
    Find(s, p) != -1
  }

  /** An occurrence makes find succeed. */
  lemma ContainsAt(s: string, p: string, i: int)
    requires OccursAt(s, p, i)
    ensures Contains(s, p)
  {
    FindSpec(s, p);
  }

  /** A character of p that s lacks rules out every occurrence. */
  lemma NotContainsChar(s: string, p: string, c: char)
    requires c in p && c !in s
    ensures !Contains(s, p)
  {
    FindSpec(s, p);
  }

  predicate IsDigit(c: char) { '0' <= c <= '9' }

  function DigitChar(d: nat): (c: char)
    requires d < 10
    ensures IsDigit(c) && (c as int) - ('0' as int) == d
  {
    ('0' as int + d) as char
  }

  function DigitValue(c: char): (r: nat)
    requires IsDigit(c)
  {
    (c as int) - ('0' as int)
  }

  /** The number a string of decimal digits denotes (the inverse of str(n)). */
  function DecimalValue(s: string): (r: nat)
    requires forall i :: 0 <= i < |s| ==> IsDigit(s[i])
  {
    if s == [] then 0 else 10 * DecimalValue(s[..|s| - 1]) + DigitValue(s[|s| - 1])
  }

  /** str(n) for a non-negative integer. */
  function DecimalString(n: nat): (r: string)
    ensures 1 <= |r|
    ensures forall i :: 0 <= i < |r| ==> IsDigit(r[i])
    ensures DecimalValue(r) == n
    ensures n < 10 ==> |r| == 1
    ensures 10 <= n < 100 ==> |r| == 2
  {
    if n < 10 then [DigitChar(n)]
    else
      var r := DecimalString(n / 10) + [DigitChar(n % 10)];
      assert r[..|r| - 1] == DecimalString(n / 10);
      r
  }

  /** s.zfill(width) for a string without a sign: pad with '0' on the left up to width. */
  function ZFill(s: string, width: nat): (r: string)
    ensures |r| == Max(|s|, width)
    ensures r[|r| - |s|..] == s
    ensures forall i :: 0 <= i < |r| - |s| ==> r[i] == '0'
  {
    seq(Max(width - |s|, 0), _ => '0') + s
  }

  /** A path that os.path.join keeps on its own: one starting with '/'. */
  predicate IsAbsolute(path: string) { |path| > 0 && path[0] == '/' }

  /**
   * os.path.join(a, b) on POSIX: b alone when it is absolute; otherwise a, then
   * b, with one '/' between them unless a is empty or already ends with '/'.
   */
  function Join(a: string, b: string): (r: string)
  {
    if IsAbsolute(b) then b
    else if a == [] || a[|a| - 1] == '/' then a + b
    else a + "/" + b
  }

  /**
   * An absolute name replaces the directory; a relative one follows the
   * directory, separated from it by a '/' unless the directory is empty.
   */
  lemma JoinSpec(a: string, b: string)
    ensures IsAbsolute(b) ==> Join(a, b) == b
    ensures var r := Join(a, b);
      !IsAbsolute(b) ==> |a| + |b| <= |r| <= |a| + |b| + 1 && r[..|a|] == a && r[|r| - |b|..] == b
    ensures var r := Join(a, b);
      !IsAbsolute(b) && a != [] ==> r[|r| - |b| - 1] == '/'
  {
  }

  /** Joining a longer relative name extends the joined path by the extra characters. */
  lemma JoinExtends(a: string, b: string, c: string)
    requires b != [] && !IsAbsolute(b)
    ensures Join(a, b + c) == Join(a, b) + c
  {
    assert (b + c)[0] == b[0];
  }

  /** A relative name joined to a non-empty directory not ending in '/' gets exactly one separator. */
  lemma JoinUnderDirectory(a: string, b: string)
    requires a != [] && a[|a| - 1] != '/' && !IsAbsolute(b)
    ensures Join(a, b) == a + "/" + b
  {
  }
}
