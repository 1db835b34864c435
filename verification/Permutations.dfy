/** Sequences that hold the same elements in different orders. */
module Permutations {

  ghost predicate SameElements<T>(left: seq<T>, right: seq<T>) {
    multiset(left) == multiset(right)
  }

  lemma SameLength<T>(left: seq<T>, right: seq<T>)
    requires SameElements(left, right)
    ensures |left| == |right|
  {
    assert |multiset(left)| == |left| && |multiset(right)| == |right|;
  }

  /** Where the first element of one sequence sits in the other, and what is left of both. */
  lemma RemoveFirst<T>(left: seq<T>, right: seq<T>) returns (k: nat)
    requires left != [] && SameElements(left, right)
    ensures k < |right| && right[k] == left[0]
    ensures right == right[..k] + [left[0]] + right[k + 1..]
    ensures SameElements(left[1..], right[..k] + right[k + 1..])
  {
    assert left[0] in multiset(left);
    assert left[0] in right;
    k :| 0 <= k < |right| && right[k] == left[0];
    assert left == [left[0]] + left[1..];
    assert right == right[..k] + [left[0]] + right[k + 1..];
    assert multiset(left[1..]) == multiset(left) - multiset{left[0]};
  }

  ghost predicate Distinct<T>(xs: seq<T>) {
    forall i, j | 0 <= i < j < |xs| :: xs[i] != xs[j]
  }

  lemma {:induction false} DistinctCount<T>(xs: seq<T>, x: T)
    requires Distinct(xs)
    ensures multiset(xs)[x] <= 1
  {
    if xs != [] {
      DistinctCount(xs[1..], x);
      assert xs == [xs[0]] + xs[1..];
      if x == xs[0] {
        assert x !in xs[1..];
      }
    }
  }

  lemma DistinctPermuted<T>(left: seq<T>, right: seq<T>)
    requires Distinct(left) && SameElements(left, right)
    ensures Distinct(right)
  {
    forall i, j | 0 <= i < j < |right| ensures right[i] != right[j] {
      DistinctCount(left, right[i]);
      assert right == right[..j] + right[j..];
      assert right[i] in right[..j] && right[j] in right[j..];
    }
  }
}
