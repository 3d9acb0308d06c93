/**
 * The Kotlin string operations the core uses: `startsWith`, `contains` (with
 * and without `ignoreCase`), `equals(ignoreCase = true)`,
 * `substringBeforeLast` and `substringAfterLast`.
 * Case folding covers the ASCII letters only.
 */
module Strings {

  /** `s.startsWith(p)`, case-sensitive. */
  predicate StartsWith(s: string, p: string) {
    |p| <= |s| && s[..|p|] == p
  }

  /** `sub` sits in `s` starting at index `i`. */
  predicate OccursAt(s: string, sub: string, i: int) {
    0 <= i && i + |sub| <= |s| && s[i..i + |sub|] == sub
  }

  /** `s.contains(sub)`, case-sensitive. */
  predicate Contains(s: string, sub: string) {
    exists i | 0 <= i <= |s| - |sub| :: OccursAt(s, sub, i)
  }

  /** The empty string is contained in every string. */
  lemma ContainsEmpty(s: string)
    ensures Contains(s, "")
  {
    assert OccursAt(s, "", 0);
  }

  /** Upper-casing of the ASCII letters; every other character is its own upper case. */
  function UpperAscii(c: char): (u: char)
    ensures 'a' <= c <= 'z' ==> 'A' <= u <= 'Z' && u as int == c as int - 32
    ensures !('a' <= c <= 'z') ==> u == c
  {
    if 'a' <= c <= 'z' then (c as int - 32) as char else c
  }

  /** Two characters equal ignoring case (Kotlin's `Char.equals(other, ignoreCase = true)`). */
  predicate CharEqualsIgnoreCase(a: char, b: char) {
    a == b || UpperAscii(a) == UpperAscii(b)
  }

  /** `a.equals(b, ignoreCase = true)`. */
  predicate EqualsIgnoreCase(a: string, b: string) {
    |a| == |b| && forall i :: 0 <= i < |a| ==> CharEqualsIgnoreCase(a[i], b[i])
  }

  /** `sub` matches `s` at index `i`, ignoring case. */
  predicate RegionMatchesIgnoreCase(s: string, i: int, sub: string) {
    0 <= i && i + |sub| <= |s| &&
    forall j :: 0 <= j < |sub| ==> CharEqualsIgnoreCase(s[i + j], sub[j])
  }

  /** `s.contains(sub, ignoreCase = true)`. */
  predicate ContainsIgnoreCase(s: string, sub: string) {
    exists i | 0 <= i <= |s| - |sub| :: RegionMatchesIgnoreCase(s, i, sub)
  }

  /** A case-sensitive occurrence is also a case-insensitive one. */
  lemma ContainsIgnoresCase(s: string, sub: string)
    requires Contains(s, sub)
    ensures ContainsIgnoreCase(s, sub)
  {
    var i :| 0 <= i <= |s| - |sub| && OccursAt(s, sub, i);
    forall j | 0 <= j < |sub|
      ensures CharEqualsIgnoreCase(s[i + j], sub[j])
    {
      assert s[i + j] == s[i..i + |sub|][j];
    }
    assert RegionMatchesIgnoreCase(s, i, sub);
  }

  /** Containment ignoring case sees the looked-for string only up to case. */
  lemma {:induction false} ContainsIgnoreCaseOfEqualSubs(s: string, sub1: string, sub2: string)
    requires EqualsIgnoreCase(sub1, sub2)
    ensures ContainsIgnoreCase(s, sub1) <==> ContainsIgnoreCase(s, sub2)
  {
    if ContainsIgnoreCase(s, sub1) {
      var i :| 0 <= i <= |s| - |sub1| && RegionMatchesIgnoreCase(s, i, sub1);
      assert RegionMatchesIgnoreCase(s, i, sub2);
    }
    if ContainsIgnoreCase(s, sub2) {
      var i :| 0 <= i <= |s| - |sub2| && RegionMatchesIgnoreCase(s, i, sub2);
      assert RegionMatchesIgnoreCase(s, i, sub1);
    }
  }

  /** Containment ignoring case sees the searched string only up to case. */
  lemma {:induction false} ContainsIgnoreCaseOfEqualStrings(s1: string, s2: string, sub: string)
    requires EqualsIgnoreCase(s1, s2)
    ensures ContainsIgnoreCase(s1, sub) <==> ContainsIgnoreCase(s2, sub)
  {
    if ContainsIgnoreCase(s1, sub) {
      var i :| 0 <= i <= |s1| - |sub| && RegionMatchesIgnoreCase(s1, i, sub);
      assert RegionMatchesIgnoreCase(s2, i, sub);
    }
    if ContainsIgnoreCase(s2, sub) {
      var i :| 0 <= i <= |s2| - |sub| && RegionMatchesIgnoreCase(s2, i, sub);
      assert RegionMatchesIgnoreCase(s1, i, sub);
    }
  }

  /** `s.lastIndexOf(c)`: the last index holding `c`, or -1. */
  function LastIndexOf(s: string, c: char): (r: int)
    ensures -1 <= r < |s|
    ensures r >= 0 ==> s[r] == c && forall j :: r < j < |s| ==> s[j] != c
    ensures r == -1 <==> c !in s
  {
    if s == [] then -1
    else if s[|s| - 1] == c then |s| - 1
    else
      var r := LastIndexOf(s[..|s| - 1], c);
      assert c in s ==> c in s[..|s| - 1] by {
        if c in s {
          var k :| 0 <= k < |s| && s[k] == c;
          assert s[..|s| - 1][k] == c;
        }
      }
      r
  }

  /**
   * `s.substringBeforeLast(c)`: the text before the last `c`, or all of `s`
   * when `c` does not occur.
   */
  function SubstringBeforeLast(s: string, c: char): (r: string)
    ensures StartsWith(s, r)
    ensures c !in s ==> r == s
    ensures c in s ==> |r| < |s| && s[|r|] == c && c !in s[|r| + 1..]
  {
    var k := LastIndexOf(s, c);
    if k == -1 then s else s[..k]
  }

  /**
   * `s.substringAfterLast(c)`: the text after the last `c`, or all of `s`
   * when `c` does not occur.
   */
  function SubstringAfterLast(s: string, c: char): (r: string)
    ensures |r| <= |s| && r == s[|s| - |r|..]
    ensures c !in r
    ensures c !in s ==> r == s
    ensures c in s ==> |r| < |s| && s[|s| - |r| - 1] == c
  {
    var k := LastIndexOf(s, c);
    if k == -1 then s else s[k + 1..]
  }
}
