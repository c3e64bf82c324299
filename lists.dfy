/**
 * The stream operations the services apply to lists: filter (keeping order),
 * limit, first match, and the subsequence relation they stay within.
 */
module Lists {
  import opened Wrappers

  /** stream().filter(keep).collect(toList()): the kept elements in order. */
  function Filter<T(!new)>(xs: seq<T>, keep: T -> bool): (r: seq<T>)
    ensures |r| <= |xs|
    ensures forall x :: x in r <==> x in xs && keep(x)
  {
    if xs == [] then []
    else (if keep(xs[0]) then [xs[0]] else []) + Filter(xs[1..], keep)
  }

  /** Filtering distributes over concatenation: the order of the input is kept. */
  lemma {:induction false} FilterAppend<T(!new)>(a: seq<T>, b: seq<T>, keep: T -> bool)
    ensures Filter(a + b, keep) == Filter(a, keep) + Filter(b, keep)
    decreases |a|
  {
    if a != [] {
      assert (a + b)[1..] == a[1..] + b;
      FilterAppend(a[1..], b, keep);
    } else {
      assert a + b == b;
    }
  }

  /** r is obtained from xs by deleting elements. */
  predicate IsSubsequence<T(==)>(r: seq<T>, xs: seq<T>)
    decreases |xs|
  {
    r == [] || (xs != [] && ((r[0] == xs[0] && IsSubsequence(r[1..], xs[1..])) || IsSubsequence(r, xs[1..])))
  }

  lemma {:induction false} FilterIsSubsequence<T(!new)>(xs: seq<T>, keep: T -> bool)
    ensures IsSubsequence(Filter(xs, keep), xs)
    decreases |xs|
  {
    if xs != [] {
      FilterIsSubsequence(xs[1..], keep);
      if keep(xs[0]) {
        assert Filter(xs, keep)[1..] == Filter(xs[1..], keep);
      } else {
        assert Filter(xs, keep) == Filter(xs[1..], keep);
      }
    }
  }

  /** Every sequence is a subsequence of itself. */
  lemma {:induction false} SubsequenceReflexive<T>(xs: seq<T>)
    ensures IsSubsequence(xs, xs)
    decreases |xs|
  {
    if xs != [] {
      SubsequenceReflexive(xs[1..]);
    }
  }

  /** Deleting from what was obtained by deleting is deleting. */
  lemma {:induction false} SubsequenceTransitive<T>(a: seq<T>, b: seq<T>, c: seq<T>)
    requires IsSubsequence(a, b) && IsSubsequence(b, c)
    ensures IsSubsequence(a, c)
    decreases |c|
  {
    if a != [] {
      if IsSubsequence(b, c[1..]) {
        SubsequenceTransitive(a, b, c[1..]);
      } else if a[0] == b[0] && IsSubsequence(a[1..], b[1..]) {
        SubsequenceTransitive(a[1..], b[1..], c[1..]);
      } else {
        SubsequenceTransitive(a, b[1..], c[1..]);
      }
    }
  }

  /** Filtering twice with the same test is filtering once. */
  lemma {:induction false} FilterIdempotent<T(!new)>(xs: seq<T>, keep: T -> bool)
    ensures Filter(Filter(xs, keep), keep) == Filter(xs, keep)
    decreases |xs|
  {
    if xs != [] {
      FilterIdempotent(xs[1..], keep);
      var head := if keep(xs[0]) then [xs[0]] else [];
      FilterAppend(head, Filter(xs[1..], keep), keep);
      assert Filter(head, keep) == head by {
        if keep(xs[0]) {
          assert head[1..] == [];
        }
      }
    }
  }

  /** Index of the first element satisfying keep, or |xs| when there is none. */
  function FirstIndex<T>(xs: seq<T>, keep: T -> bool): (r: nat)
    ensures r <= |xs|
    ensures forall j :: 0 <= j < r ==> !keep(xs[j])
    ensures r < |xs| ==> keep(xs[r])
  {
    if xs == [] then 0
    else if keep(xs[0]) then 0
    else 1 + FirstIndex(xs[1..], keep)
  }

  /** An element that passes, with none passing before it, is the first. */
  lemma {:induction false} FirstIndexIsFirst<T>(xs: seq<T>, keep: T -> bool, i: nat)
    requires i < |xs| && keep(xs[i])
    requires forall k :: 0 <= k < i ==> !keep(xs[k])
    ensures FirstIndex(xs, keep) == i
  {
  }

  /** The head of a filter is the first kept element. */
  lemma {:induction false} FilterHead<T(!new)>(xs: seq<T>, keep: T -> bool)
    ensures Filter(xs, keep) != [] <==> FirstIndex(xs, keep) < |xs|
    ensures Filter(xs, keep) != [] ==> Filter(xs, keep)[0] == xs[FirstIndex(xs, keep)]
    decreases |xs|
  {
    if xs != [] && !keep(xs[0]) {
      FilterHead(xs[1..], keep);
    }
  }

  /** stream().limit(n). */
  function Take<T>(xs: seq<T>, n: nat): (r: seq<T>)
    ensures |r| == (if |xs| <= n then |xs| else n)
    ensures r == xs[..|r|]
  {
    if |xs| <= n then xs else xs[..n]
  }

  /** A prefix one element longer. */
  lemma PrefixSnoc<T>(xs: seq<T>, t: nat)
    requires t < |xs|
    ensures xs[..t + 1] == xs[..t] + [xs[t]]
  {
  }
}
