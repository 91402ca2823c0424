/** Plain string helpers used to recognise badge snippets and document lines.
    Strings are `seq<char>`; matching is exact and case-sensitive. */
module Text {

  /** `p` occurs in `s` starting at index `i`. */
  predicate OccursAt(s: string, p: string, i: nat)
  {
    i + |p| <= |s| && s[i..i + |p|] == p
  }

  /** `p` is a substring of `s` (the model of a fingerprint test `.*p.*`). */
  predicate Contains(s: string, p: string)
  {
    exists i: nat | i <= |s| :: OccursAt(s, p, i)
  }

  predicate StartsWith(s: string, p: string)
  {
    |p| <= |s| && s[..|p|] == p
  }

  lemma ContainsSelf(p: string)
    ensures Contains(p, p)
  {
    assert OccursAt(p, p, 0);
  }

  /** An occurrence in `x` is still an occurrence once text is appended. */
  lemma ContainsInLeft(x: string, y: string, p: string)
    requires Contains(x, p)
    ensures Contains(x + y, p)
  {
    var i: nat :| i <= |x| && OccursAt(x, p, i);
    assert (x + y)[i..i + |p|] == x[i..i + |p|];
    assert OccursAt(x + y, p, i);
  }

  /** An occurrence in `y` is still an occurrence once text is prepended. */
  lemma ContainsInRight(x: string, y: string, p: string)
    requires Contains(y, p)
    ensures Contains(x + y, p)
  {
    var i: nat :| i <= |y| && OccursAt(y, p, i);
    assert (x + y)[|x| + i..|x| + i + |p|] == y[i..i + |p|];
    assert OccursAt(x + y, p, |x| + i);
  }

  /** `x + p + y` contains `p`. */
  lemma ContainsBetween(x: string, p: string, y: string)
    ensures Contains(x + p + y, p)
  {
    ContainsSelf(p);
    ContainsInRight(x, p, p);
    ContainsInLeft(x + p, y, p);
  }

  lemma StartsWithContains(s: string, p: string)
    requires StartsWith(s, p)
    ensures Contains(s, p)
  {
    assert OccursAt(s, p, 0);
  }

  lemma StartsWithAppend(x: string, y: string, p: string)
    requires StartsWith(x, p)
    ensures StartsWith(x + y, p)
  {
    assert (x + y)[..|p|] == x[..|p|];
  }

  /** A line whose first character differs from that of `p` does not start with `p`. */
  lemma FirstCharRulesOut(s: string, p: string)
    requires |p| > 0 && (|s| == 0 || s[0] != p[0])
    ensures !StartsWith(s, p)
  {
    if |p| <= |s| {
      assert s[..|p|][0] == s[0];
    }
  }

  /** A text without some character of `p` cannot contain `p`. */
  lemma MissingCharRulesOut(s: string, p: string, c: char)
    requires c in p && c !in s
    ensures !Contains(s, p)
  {
    forall i: nat | i <= |s|
      ensures !OccursAt(s, p, i)
    {
      if OccursAt(s, p, i) {
        assert false;
      }
    }
  }

  /** No `c1` in `s` is directly followed by `c2`. */
  predicate LacksPair(s: string, c1: char, c2: char)
  {
    forall j | 0 <= j < |s| - 1 :: !(s[j] == c1 && s[j + 1] == c2)
  }

  /** A text in which the adjacent pair `p[k], p[k + 1]` never occurs cannot contain `p`. */
  lemma MissingPairRulesOut(s: string, p: string, k: nat, c1: char, c2: char)
    requires k + 1 < |p| && p[k] == c1 && p[k + 1] == c2
    requires LacksPair(s, c1, c2)
    ensures !Contains(s, p)
  {
    forall i: nat | i <= |s|
      ensures !OccursAt(s, p, i)
    {
      if OccursAt(s, p, i) {
        assert false;
      }
    }
  }

  /** Joining two texts creates the pair only across the seam. */
  lemma LacksPairConcat(x: string, y: string, c1: char, c2: char)
    requires LacksPair(x, c1, c2) && LacksPair(y, c1, c2)
    requires |x| == 0 || |y| == 0 || !(x[|x| - 1] == c1 && y[0] == c2)
    ensures LacksPair(x + y, c1, c2)
  {
    forall j | 0 <= j < |x + y| - 1
      ensures !((x + y)[j] == c1 && (x + y)[j + 1] == c2)
    {
      if j + 1 < |x| {
        assert (x + y)[j] == x[j] && (x + y)[j + 1] == x[j + 1];
      } else if j + 1 == |x| {
        assert (x + y)[j] == x[|x| - 1] && (x + y)[j + 1] == y[0];
      } else {
        assert (x + y)[j] == y[j - |x|] && (x + y)[j + 1] == y[j - |x| + 1];
      }
    }
  }
}
