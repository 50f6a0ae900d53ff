/** A switch that some steps turn on and others off: what it is now, told from the steps. */
module Since {

  /** Step `j` turned it on, and none up to `k` turned it off after that. */
  predicate OnAt(on: seq<bool>, off: seq<bool>, j: nat, k: nat)
    requires j < k <= |on| == |off|
  {
    on[j] && forall i :: j < i < k ==> !off[i]
  }

  predicate OnSince(on: seq<bool>, off: seq<bool>, k: nat)
    requires k <= |on| == |off|
  {
    exists j :: 0 <= j < k && OnAt(on, off, j, k)
  }

  lemma OnSinceNext(on: seq<bool>, off: seq<bool>, k: nat)
    requires k < |on| == |off|
    ensures OnSince(on, off, k + 1) <==> on[k] || (OnSince(on, off, k) && !off[k])
  {
    var n := k + 1;
    if j :| 0 <= j < n && OnAt(on, off, j, n) {
      if j < k { assert OnAt(on, off, j, k); }
    }
    if on[k] { assert OnAt(on, off, k, n); }
    if j :| 0 <= j < k && OnAt(on, off, j, k) {
      if !off[k] { assert OnAt(on, off, j, n); }
    }
  }

  /** A switch that starts off and follows its steps is on exactly when it was turned on and not off since. */
  lemma {:induction false} SwitchIs(x: seq<bool>, on: seq<bool>, off: seq<bool>, k: nat)
    requires |x| == |on| + 1 && |on| == |off| && k <= |on| && !x[0]
    requires forall i :: 0 <= i < |on| ==> (x[i + 1] <==> on[i] || (x[i] && !off[i]))
    ensures x[k] <==> OnSince(on, off, k)
  {
    hide OnSince;
    if k == 0 {
      assert !OnSince(on, off, 0) by { NeverOn(on, off); }
    } else {
      SwitchIs(x, on, off, k - 1);
      OnSinceNext(on, off, k - 1);
      assert x[(k - 1) + 1] == x[k];
    }
  }

  lemma NeverOn(on: seq<bool>, off: seq<bool>)
    requires |on| == |off|
    ensures !OnSince(on, off, 0)
  {
  }
}
