/** How often an element occurs in a list. */
module Tally {
  /** Among the first `k`. */
  function Times<T(==)>(xs: seq<T>, x: T, k: nat): nat
    requires k <= |xs|
  {
    if k == 0 then 0 else Times(xs, x, k - 1) + if xs[k - 1] == x then 1 else 0
  }

  lemma {:induction false} DistinctTimes<T>(xs: seq<T>, x: T, k: nat)
    requires k <= |xs| && forall i, j :: 0 <= i < j < |xs| ==> xs[i] != xs[j]
    ensures Times(xs, x, k) == if x in xs[..k] then 1 else 0
  {
    if k > 0 {
      DistinctTimes(xs, x, k - 1);
      assert xs[..k] == xs[..k - 1] + [xs[k - 1]];
    }
  }
}
