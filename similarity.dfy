/**
 * The similarity score of ProductMatchingService, 1 - d / maxLen, as an exact
 * rational, and the 0.7 threshold stated as an integer test.
 */
module SimilarityScore {
  import opened EditDistance

  lemma PositiveFactor(x: real, y: real)
    requires y > 0.0 && x * y > 0.0
    ensures x > 0.0
  {
  }

  lemma NonnegativeFactor(x: real, y: real)
    requires y > 0.0 && x * y >= 0.0
    ensures x >= 0.0
  {
  }

  /** For 0 < d <= m the ratio d / m lies in (0, 1]. */
  lemma RatioBounds(d: nat, m: nat)
    requires 0 < d <= m
    ensures 0.0 < d as real / m as real <= 1.0
  {
    var q := d as real / m as real;
    var mr := m as real;
    assert q * mr == d as real;
    PositiveFactor(q, mr);
    assert (1.0 - q) * mr == mr - d as real;
    NonnegativeFactor(1.0 - q, mr);
  }

  lemma BelowRatio(d: nat, m: nat)
    requires m > 0 && 10 * d < 3 * m
    ensures d as real / m as real < 0.3
  {
    var q := d as real / m as real;
    var mr := m as real;
    assert q * mr == d as real;
    assert (0.3 - q) * mr == 0.3 * mr - d as real;
    PositiveFactor(0.3 - q, mr);
  }

  lemma AboveRatio(d: nat, m: nat)
    requires m > 0 && 10 * d >= 3 * m
    ensures d as real / m as real >= 0.3
  {
    var q := d as real / m as real;
    var mr := m as real;
    assert q * mr == d as real;
    assert (q - 0.3) * mr == d as real - 0.3 * mr;
    NonnegativeFactor(q - 0.3, mr);
  }

  /** 1 - d / m > 0.7 exactly when 10 d < 3 m. */
  lemma RatioThreshold(d: nat, m: nat)
    requires m > 0
    ensures 1.0 - d as real / m as real > 0.7 <==> 10 * d < 3 * m
  {
    if 10 * d < 3 * m {
      BelowRatio(d, m);
    } else {
      AboveRatio(d, m);
    }
  }

  /** calculateSimilarity: 1.0 for equal strings, otherwise 1 - d / maxLen. */
  function Similarity(s1: string, s2: string): (r: real)
    ensures 0.0 <= r <= 1.0
    ensures r == 1.0 <==> s1 == s2
  {
    if s1 == s2 then 1.0
    else
      var maxLen := Max(|s1|, |s2|);
      if maxLen == 0 then 1.0
      else
        LevPositive(s1, s2);
        LevBounds(s1, s2);
        RatioBounds(Lev(s1, s2), maxLen);
        1.0 - Lev(s1, s2) as real / maxLen as real
  }

  /** The 0.7 threshold is exactly the integer test 10 d < 3 maxLen. */
  lemma SimilarityThreshold(s1: string, s2: string)
    ensures Similarity(s1, s2) > 0.7 <==> s1 == s2 || 10 * Lev(s1, s2) < 3 * Max(|s1|, |s2|)
  {
    if s1 != s2 {
      RatioThreshold(Lev(s1, s2), Max(|s1|, |s2|));
    }
  }

  /** Similarity does not depend on the order of its arguments. */
  lemma SimilaritySymmetric(s1: string, s2: string)
    ensures Similarity(s1, s2) == Similarity(s2, s1)
  {
    LevSymmetric(s1, s2);
  }
}
