/**
 * The edit distance of ProductMatchingService: Levenshtein distance filled in
 * a dynamic-programming table, and the facts about it the similarity needs.
 */
module EditDistance {

  /** Math.min. The swap in the second branch makes the definition recursive,
    * so the verifier unfolds it only where a proof asks for it. */
  function Min(a: int, b: int): int
    decreases if a <= b then 0 else 1
  {
    if a <= b then a else Min(b, a)
  }
  function Max(a: int, b: int): int { if a >= b then a else b }

  /** One inner cell of the table: the cheapest of a deletion, an insertion
    * and a substitution (free when the two chars are the same). */
  function Cell(del: nat, ins: nat, sub: nat, same: bool): nat {
    MinIsLeast(del + 1, ins + 1);
    MinIsLeast(Min(del + 1, ins + 1), sub + (if same then 0 else 1));
    Min(Min(del + 1, ins + 1), sub + (if same then 0 else 1))
  }

  /** Math.min returns one of its arguments, and no more than either. */
  lemma MinIsLeast(a: int, b: int)
    ensures Min(a, b) <= a && Min(a, b) <= b
    ensures Min(a, b) == a || Min(a, b) == b
  {
  }

  /** A cell is the cheapest of its three candidates. */
  lemma CellIsLeast(del: nat, ins: nat, sub: nat, same: bool)
    ensures Cell(del, ins, sub, same) <= del + 1 && Cell(del, ins, sub, same) <= ins + 1
    ensures Cell(del, ins, sub, same) <= sub + (if same then 0 else 1)
    ensures Cell(del, ins, sub, same) == del + 1 || Cell(del, ins, sub, same) == ins + 1 ||
            Cell(del, ins, sub, same) == sub + (if same then 0 else 1)
  {
    MinIsLeast(del + 1, ins + 1);
    MinIsLeast(Min(del + 1, ins + 1), sub + (if same then 0 else 1));
  }

  /** Classic edit distance (insert, delete, substitute, each of cost 1)
    * between the prefixes s[..i] and t[..j]. */
  function Dist(s: string, t: string, i: nat, j: nat): nat
    requires i <= |s| && j <= |t|
    decreases i + j
  {
    if i == 0 then j
    else if j == 0 then i
    else Cell(Dist(s, t, i - 1, j), Dist(s, t, i, j - 1), Dist(s, t, i - 1, j - 1), s[i - 1] == t[j - 1])
  }

  /** The edit distance of two whole strings. */
  function Lev(s: string, t: string): nat {
    Dist(s, t, |s|, |t|)
  }

  /** levenshteinDistance: the (|s1|+1) x (|s2|+1) table filled row by row. */
  method LevenshteinDistance(s1: string, s2: string) returns (distance: int)
    ensures distance == Lev(s1, s2)
  {
    var dp := new int[|s1| + 1, |s2| + 1];
    var i := 0;
    while i <= |s1|
      invariant 0 <= i <= |s1| + 1
      invariant forall a, b {:trigger dp[a, b]} :: 0 <= a < i && 0 <= b <= |s2| ==> dp[a, b] == Dist(s1, s2, a, b)
    {
      var j := 0;
      while j <= |s2|
        invariant 0 <= j <= |s2| + 1
        invariant forall a, b {:trigger dp[a, b]} :: 0 <= a < i && 0 <= b <= |s2| ==> dp[a, b] == Dist(s1, s2, a, b)
        invariant forall b {:trigger dp[i, b]} :: 0 <= b < j ==> dp[i, b] == Dist(s1, s2, i, b)
      {
        if i == 0 {
          dp[i, j] := j;
        } else if j == 0 {
          dp[i, j] := i;
        } else {
          dp[i, j] := Min(Min(dp[i - 1, j] + 1, dp[i, j - 1] + 1),
                          dp[i - 1, j - 1] + (if s1[i - 1] == s2[j - 1] then 0 else 1));
        }
        j := j + 1;
      }
      i := i + 1;
    }
    distance := dp[|s1|, |s2|];
  }

  lemma {:induction false} DistBounds(s: string, t: string, i: nat, j: nat)
    requires i <= |s| && j <= |t|
    ensures Dist(s, t, i, j) <= Max(i, j)
    ensures i - j <= Dist(s, t, i, j) && j - i <= Dist(s, t, i, j)
    decreases i + j
  {
    if i > 0 && j > 0 {
      DistBounds(s, t, i - 1, j);
      DistBounds(s, t, i, j - 1);
      DistBounds(s, t, i - 1, j - 1);
      CellIsLeast(Dist(s, t, i - 1, j), Dist(s, t, i, j - 1), Dist(s, t, i - 1, j - 1), s[i - 1] == t[j - 1]);
    }
  }

  lemma {:induction false} DistSelf(s: string, i: nat)
    requires i <= |s|
    ensures Dist(s, s, i, i) == 0
  {
    if i > 0 {
      DistSelf(s, i - 1);
      CellIsLeast(Dist(s, s, i - 1, i), Dist(s, s, i, i - 1), Dist(s, s, i - 1, i - 1), true);
    }
  }

  /** d(s, s) = 0. */
  lemma LevSelf(s: string)
    ensures Lev(s, s) == 0
  {
    DistSelf(s, |s|);
  }

  lemma {:induction false} DistZeroMeansEqual(s: string, t: string, i: nat, j: nat)
    requires i <= |s| && j <= |t| && Dist(s, t, i, j) == 0
    ensures i == j && s[..i] == t[..j]
  {
    if i > 0 && j > 0 {
      CellIsLeast(Dist(s, t, i - 1, j), Dist(s, t, i, j - 1), Dist(s, t, i - 1, j - 1), s[i - 1] == t[j - 1]);
      DistZeroMeansEqual(s, t, i - 1, j - 1);
      assert s[..i] == s[..i - 1] + [s[i - 1]];
      assert t[..j] == t[..j - 1] + [t[j - 1]];
    }
  }

  /** Distinct strings are at a positive distance. */
  lemma LevPositive(s: string, t: string)
    requires s != t
    ensures Lev(s, t) > 0
  {
    if Lev(s, t) == 0 {
      DistZeroMeansEqual(s, t, |s|, |t|);
    }
  }

  lemma CellSwap(a: nat, b: nat, c: nat, same: bool)
    ensures Cell(a, b, c, same) == Cell(b, a, c, same)
  {
  }

  lemma {:induction false} DistSymmetric(s: string, t: string, i: nat, j: nat)
    requires i <= |s| && j <= |t|
    ensures Dist(s, t, i, j) == Dist(t, s, j, i)
    decreases i + j
  {
    if i > 0 && j > 0 {
      DistSymmetric(s, t, i - 1, j);
      DistSymmetric(s, t, i, j - 1);
      DistSymmetric(s, t, i - 1, j - 1);
      var del := Dist(s, t, i - 1, j);
      var ins := Dist(s, t, i, j - 1);
      var sub := Dist(s, t, i - 1, j - 1);
      var same := s[i - 1] == t[j - 1];
      assert Dist(s, t, i, j) == Cell(del, ins, sub, same);
      assert Dist(t, s, j, i) == Cell(ins, del, sub, same);
      CellSwap(del, ins, sub, same);
    }
  }

  /** The distance is symmetric. */
  lemma LevSymmetric(s: string, t: string)
    ensures Lev(s, t) == Lev(t, s)
  {
    DistSymmetric(s, t, |s|, |t|);
  }

  /** The distance lies between the length difference and the longer length;
    * in particular d("", t) = |t|. */
  lemma LevBounds(s: string, t: string)
    ensures Lev(s, t) <= Max(|s|, |t|)
    ensures |s| - |t| <= Lev(s, t) && |t| - |s| <= Lev(s, t)
    ensures s == [] ==> Lev(s, t) == |t|
  {
    DistBounds(s, t, |s|, |t|);
  }
}
