/** Substring and case helpers over `string` (a `seq<char>`). */
module Text {

  /** `p` is a prefix of `s`. */
  predicate StartsWith(s: string, p: string) {
    |p| <= |s| && s[..|p|] == p
  }

  /** Python's `p in t` on strings: `p` occurs somewhere in `t`. */
  predicate Occurs(p: string, t: string) {
    exists i :: 0 <= i <= |t| && StartsWith(t[i..], p)
  }

  /** A suffix of a text without `p` is still without `p`. */
  lemma NoOccurrenceInSuffix(p: string, t: string, k: nat)
    requires k <= |t|
    ensures Occurs(p, t[k..]) ==> Occurs(p, t)
  {
    if Occurs(p, t[k..]) {
      var i :| 0 <= i <= |t[k..]| && StartsWith(t[k..][i..], p);
      assert t[k..][i..] == t[k + i..];
    }
  }

  /** A text with a given first character starts with `p` exactly when that character and the rest match. */
  lemma ConsStart(c: char, u: string, p: string)
    ensures StartsWith([c] + u, p) <==> |p| == 0 || (c == p[0] && StartsWith(u, p[1..]))
  {
    if |p| > 0 && c == p[0] && StartsWith(u, p[1..]) {
      assert ([c] + u)[..|p|] == [c] + u[..|p| - 1];
    }
    if |p| > 0 && StartsWith([c] + u, p) {
      assert ([c] + u)[..|p|] == [c] + u[..|p| - 1];
      assert u[..|p| - 1] == p[1..];
    }
  }

  /** If `r + u` starts with `p`, then `r` starts with `p` or `p` starts with `r`. */
  lemma ConcatStart(r: string, u: string, p: string)
    ensures StartsWith(r + u, p) ==> StartsWith(r, p) || StartsWith(p, r)
  {
    if StartsWith(r + u, p) {
      if |r| >= |p| {
        assert (r + u)[..|p|] == r[..|p|];
      } else {
        assert (r + u)[..|p|][..|r|] == r;
      }
    }
  }

  /** Putting before a text without `p` characters none of which is `p`'s first keeps it without `p`. */
  lemma NoOccurrenceAfter(a: string, u: string, p: string)
    requires |p| > 0 && p[0] !in a && !Occurs(p, u)
    ensures !Occurs(p, a + u)
  {
    var t := a + u;
    forall i | 0 <= i <= |t|
      ensures !StartsWith(t[i..], p)
    {
      if i < |a| {
        assert t[i..][0] == a[i];
      } else {
        assert t[i..] == u[i - |a|..];
      }
    }
  }

  /** Putting one character before a text without `p` keeps it without `p`, unless the result starts with `p`. */
  lemma NoOccurrenceCons(c: char, u: string, p: string)
    requires !Occurs(p, u) && !StartsWith([c] + u, p)
    ensures !Occurs(p, [c] + u)
  {
    var t := [c] + u;
    forall i | 0 < i <= |t|
      ensures !StartsWith(t[i..], p)
    {
      assert t[i..] == u[i - 1..];
    }
  }

  /** Python's `str.lower()` on one character; only ASCII letters are mapped. */
  function LowerChar(c: char): char {
    if 'A' <= c <= 'Z' then (c as int + 32) as char else c
  }

  /** Python's `str.lower()`, character by character. */
  function Lower(s: string): (r: string)
    ensures |r| == |s|
    ensures forall i :: 0 <= i < |s| ==> r[i] == LowerChar(s[i])
  {
    seq(|s|, i requires 0 <= i < |s| => LowerChar(s[i]))
  }

  /** Lower-casing twice is lower-casing once. */
  lemma LowerIdempotent(s: string)
    ensures Lower(Lower(s)) == Lower(s)
  {
  }
}
