/**
 * Substring search on strings, as JavaScript's `String.prototype.indexOf`
 * (searching from index 0) and `String.prototype.includes` perform it.
 */
module Text {

  /** `p` occurs in `s` starting at index `i`. */
  predicate OccursAt(s: string, p: string, i: int) {
    0 <= i && i + |p| <= |s| && s[i..i + |p|] == p
  }

  /** The first index `>= k` at which `p` occurs in `s`, or -1 when there is none. */
  function IndexFrom(s: string, p: string, k: nat): (r: int)
    requires k <= |s|
    ensures r == -1 || (k <= r && OccursAt(s, p, r))
    ensures r == -1 <==> forall i :: k <= i ==> !OccursAt(s, p, i)
    ensures forall i :: k <= i < r ==> !OccursAt(s, p, i)
    decreases |s| - k
  {
    if k + |p| > |s| then -1
    else if s[k..k + |p|] == p then k
    else IndexFrom(s, p, k + 1)
  }

  /** `s.indexOf(p)`: the first index at which `p` occurs in `s`, or -1. */
  function IndexOf(s: string, p: string): (r: int)
    ensures r == -1 || OccursAt(s, p, r)
    ensures r == -1 <==> forall i :: !OccursAt(s, p, i)
    ensures forall i :: 0 <= i < r ==> !OccursAt(s, p, i)
  {
    IndexFrom(s, p, 0)
  }

  /** `s.includes(p)`, which holds exactly when `s.indexOf(p) !== -1`. */
  function Includes(s: string, p: string): (b: bool)
    ensures b <==> exists i :: OccursAt(s, p, i)
  {
    IndexOf(s, p) != -1
  }

  /** A string built around `p` contains `p` where it was put. */
  lemma OccursBetween(a: string, p: string, b: string)
    ensures OccursAt(a + (p + b), p, |a|)
    ensures Includes(a + (p + b), p)
  {
    assert (a + (p + b))[|a|..|a| + |p|] == p;
    assert OccursAt(a + (p + b), p, |a|);
  }
}
