/** Positional facts about strings: where a piece of text sits inside a prompt. */
module Strings {

  /** `t` appears in `s` starting at index `i`. */
  predicate OccursAt(s: string, t: string, i: int)
  {
    0 <= i && i + |t| <= |s| && s[i..i + |t|] == t
  }

  /** `t` appears somewhere in `s`. */
  ghost predicate Contains(s: string, t: string)
  {
    exists i :: OccursAt(s, t, i)
  }

  /** `s` ends with `t`. */
  predicate EndsWith(s: string, t: string)
  {
    |t| <= |s| && s[|s| - |t|..] == t
  }

  /** A piece glued between a prefix and a suffix sits right after the prefix. */
  lemma OccursBetween(pre: string, t: string, post: string)
    ensures OccursAt(pre + t + post, t, |pre|)
  {
    assert (pre + t + post)[|pre|..|pre| + |t|] == t;
  }

  /** A piece glued last is a suffix. */
  lemma EndsWithLast(pre: string, t: string)
    ensures EndsWith(pre + t, t)
    ensures OccursAt(pre + t, t, |pre|)
  {
    assert (pre + t)[|pre|..] == t;
  }

  /** An occurrence inside an occurrence is an occurrence in the whole. */
  lemma OccursWithin(s: string, u: string, i: int, t: string, j: int)
    requires OccursAt(s, u, i) && OccursAt(u, t, j)
    ensures OccursAt(s, t, i + j)
  {
    forall k | 0 <= k < |t|
      ensures s[i + j..i + j + |t|][k] == t[k]
    {
      assert s[i + j + k] == s[i..i + |u|][j + k];
    }
  }

  /** `t` and `u` disagree at some index both have. */
  predicate Diverge(t: string, u: string)
  {
    exists k :: 0 <= k < |t| && 0 <= k < |u| && t[k] != u[k]
  }

  /** Two texts that disagree somewhere cannot both occur at the same position. */
  lemma NotBothAt(s: string, t: string, u: string, i: int)
    requires Diverge(t, u)
    ensures !(OccursAt(s, t, i) && OccursAt(s, u, i))
  {
    var k :| 0 <= k < |t| && 0 <= k < |u| && t[k] != u[k];
  }

  /** The pieces of a five-piece concatenation, each at the sum of the lengths before it. */
  lemma Segments5(a: string, b: string, c: string, d: string, e: string)
    ensures var s := a + b + c + d + e;
            && |s| == |a| + |b| + |c| + |d| + |e|
            && OccursAt(s, a, 0)
            && OccursAt(s, b, |a|)
            && OccursAt(s, c, |a| + |b|)
            && OccursAt(s, d, |a| + |b| + |c|)
            && OccursAt(s, e, |a| + |b| + |c| + |d|)
            && EndsWith(s, e)
  {
    var s := a + b + c + d + e;
    OccursBetween([], a, b + c + d + e);
    assert s == [] + a + (b + c + d + e);
    OccursBetween(a, b, c + d + e);
    assert s == a + b + (c + d + e);
    OccursBetween(a + b, c, d + e);
    assert s == (a + b) + c + (d + e);
    OccursBetween(a + b + c, d, e);
    EndsWithLast(a + b + c + d, e);
  }
}
