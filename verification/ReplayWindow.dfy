/** The bounded nonce window of `auth.rs`. */
module ReplayWindow {

  const MAX_ENTRIES: nat := 1024
  const U64_MAX: nat := 0xFFFF_FFFF_FFFF_FFFF

  datatype Window = Window(lastCounter: nat, seen: seq<nat>)

  function Decide(w: Window, counter: nat): (Window, bool) {
    if counter in w.seen || counter + MAX_ENTRIES <= w.lastCounter then (w, false)
    else
      var seen := w.seen + [counter];
      (Window(if counter > w.lastCounter then counter else w.lastCounter,
              if |seen| > MAX_ENTRIES then seen[1..] else seen),
       true)
  }

  class Nonces {
    var lastCounter: nat
    var seen: seq<nat>

    function State(): Window reads this { Window(lastCounter, seen) }

    constructor ()
      ensures State() == Window(0, [])
    {
      lastCounter, seen := 0, [];
    }

    /** The sum is u64 arithmetic with overflow checks on, so it has to fit. */
    method Accept(counter: nat) returns (accepted: bool)
      requires counter + MAX_ENTRIES <= U64_MAX
      modifies this
      ensures (State(), accepted) == Decide(old(State()), counter)
    {
      if counter in seen {
        return false;
      }
      if counter + MAX_ENTRIES <= lastCounter {
        return false;
      }
      seen := seen + [counter];
      if |seen| > MAX_ENTRIES {
        seen := seen[1..];
      }
      if counter > lastCounter {
        lastCounter := counter;
      }
      return true;
    }
  }

  // ----- whole runs from the empty window

  /** The window and the counters it accepted, in order of arrival. */
  datatype History = History(window: Window, accepted: seq<nat>)

  function Record(h: History, counter: nat): History {
    var (w, accepted) := Decide(h.window, counter);
    History(w, if accepted then h.accepted + [counter] else h.accepted)
  }

  /** The first k requests of a run. */
  function Run(cs: seq<nat>, k: nat): History
    requires k <= |cs|
  {
    if k == 0 then History(Window(0, []), []) else Record(Run(cs, k - 1), cs[k - 1])
  }

  function Accepted(cs: seq<nat>, k: nat): seq<nat>
    requires k <= |cs|
  {
    Run(cs, k).accepted
  }

  predicate Accepts(cs: seq<nat>, k: nat)
    requires k < |cs|
  {
    Decide(Run(cs, k).window, cs[k]).1
  }

  function Max(s: seq<nat>): nat {
    if s == [] then 0
    else
      var rest := Max(s[..|s| - 1]);
      if s[|s| - 1] > rest then s[|s| - 1] else rest
  }

  lemma {:induction false} MaxIsLargest(s: seq<nat>)
    ensures forall i :: 0 <= i < |s| ==> s[i] <= Max(s)
    ensures Max(s) in s || (s == [] && Max(s) == 0)
  {
    if s != [] {
      MaxIsLargest(s[..|s| - 1]);
    }
  }

  function Newest(s: seq<nat>): (t: seq<nat>)
    ensures |t| <= MAX_ENTRIES
  {
    if |s| <= MAX_ENTRIES then s else s[|s| - MAX_ENTRIES..]
  }

  lemma MaxPush(s: seq<nat>, c: nat)
    ensures Max(s + [c]) == if c > Max(s) then c else Max(s)
  {
    assert (s + [c])[..|s|] == s;
  }

  lemma NewestPush(s: seq<nat>, c: nat)
    ensures Newest(s + [c]) == var seen := Newest(s) + [c]; if |seen| > MAX_ENTRIES then seen[1..] else seen
  {
  }

  /** Exactly the last 1024 positions are remembered. */
  lemma NewestPositions(s: seq<nat>, i: nat)
    requires i < |s| && s[i] !in s[i + 1..]
    ensures s[i] in Newest(s) <==> |s| - i <= MAX_ENTRIES
  {
    var seen := Newest(s);
    var from := |s| - |seen|;
    assert seen == s[from..];
    if i >= from {
      assert seen[i - from] == s[i];
    } else {
      assert forall j :: 0 <= j < |seen| ==> seen[j] == s[i + 1..][from - i - 1 + j];
    }
  }

  /** One decision on a window that remembers exactly `acc`. */
  lemma DecideRemembers(acc: seq<nat>, c: nat)
    ensures var (w, accepted) := Decide(Window(Max(acc), Newest(acc)), c);
            var acc' := if accepted then acc + [c] else acc;
            w == Window(Max(acc'), Newest(acc'))
  {
    MaxPush(acc, c);
    NewestPush(acc, c);
  }

  /** The window is the last 1024 accepted counters and the largest accepted one; it forgets by arrival. */
  lemma {:induction false} WindowRemembers(cs: seq<nat>, k: nat)
    requires k <= |cs|
    ensures Run(cs, k).window == Window(Max(Accepted(cs, k)), Newest(Accepted(cs, k)))
  {
    hide Decide, Newest, Max;
    if k == 0 {
      NothingYet(cs);
    } else {
      WindowRemembers(cs, k - 1);
      DecideRemembers(Accepted(cs, k - 1), cs[k - 1]);
    }
  }

  /** A replay gets through exactly when 1024 acceptances lie after its own and it is not yet stale. */
  lemma ReplayedIff(cs: seq<nat>, k: nat, i: nat)
    requires k < |cs| && i < |Accepted(cs, k)| && Accepted(cs, k)[i] == cs[k]
    requires cs[k] !in Accepted(cs, k)[i + 1..]
    ensures Accepts(cs, k) <==>
              && |Accepted(cs, k)| - i > MAX_ENTRIES
              && Max(Accepted(cs, k)) < cs[k] + MAX_ENTRIES
  {
    hide Newest, Max;
    WindowRemembers(cs, k);
    NewestPositions(Accepted(cs, k), i);
  }

  /** In every run, in whatever order counters arrive: one is accepted exactly when it is none of the last 1024 accepted
      and less than 1024 below each that was accepted. */
  lemma AcceptedIff(cs: seq<nat>, k: nat)
    requires k < |cs|
    ensures var acc := Accepted(cs, k);
      Accepts(cs, k) <==>
        && (forall i :: 0 <= i < |acc| && |acc| - i <= 1024 ==> acc[i] != cs[k])
        && forall i :: 0 <= i < |acc| ==> acc[i] < cs[k] + 1024
  {
    var acc := Accepted(cs, k);
    WindowRemembers(cs, k);
    MaxIsLargest(acc);
    hide Max, Accepted, Run;
    var seen := Newest(acc);
    assert forall j :: 0 <= j < |seen| ==> seen[j] == acc[|acc| - |seen| + j];
    assert forall i :: 0 <= i < |acc| && |acc| - i <= 1024 ==> acc[i] == seen[i - (|acc| - |seen|)];
  }

  /** Two acceptances of one counter have at least 1024 other acceptances between them. */
  lemma {:induction false} AcceptancesFarApart(cs: seq<nat>, k: nat, i: nat, j: nat)
    requires k <= |cs| && i < j < |Accepted(cs, k)|
    requires Accepted(cs, k)[i] == Accepted(cs, k)[j]
    ensures j - i - 1 >= MAX_ENTRIES
  {
    hide Newest, Max;
    var acc := Accepted(cs, k);
    var before := Accepted(cs, k - 1);
    if j < |before| {
      AcceptancesFarApart(cs, k - 1, i, j);
    } else {
      WindowRemembers(cs, k - 1);
      if |before| - i <= MAX_ENTRIES {
        RecentIsSeen(before, i);
      }
    }
  }

  lemma RecentIsSeen(s: seq<nat>, i: nat)
    requires i < |s| && |s| - i <= MAX_ENTRIES
    ensures s[i] in Newest(s)
  {
    var seen := Newest(s);
    assert seen[i - (|s| - |seen|)] == s[i];
  }

  /** Every counter is a replay or larger than all before it. */
  ghost predicate FirstArrivalsIncrease(cs: seq<nat>) {
    forall k :: 0 <= k < |cs| ==> cs[k] in cs[..k] || forall i :: 0 <= i < k ==> cs[i] < cs[k]
  }

  ghost predicate Increasing(s: seq<nat>) {
    forall i, j :: 0 <= i < j < |s| ==> s[i] < s[j]
  }

  lemma {:induction false} IncreasingGap(s: seq<nat>, i: nat, j: nat)
    requires Increasing(s) && i <= j < |s|
    ensures s[j] >= s[i] + (j - i)
  {
    if i < j { IncreasingGap(s, i, j - 1); }
  }

  ghost predicate SameElements(a: seq<nat>, b: seq<nat>) {
    forall x :: x in a <==> x in b
  }

  /** One decision on an increasing history, for a replay or a new maximum. */
  lemma DecideInOrder(acc: seq<nat>, c: nat)
    requires Increasing(acc) && (c in acc || forall i :: 0 <= i < |acc| ==> acc[i] < c)
    ensures Decide(Window(Max(acc), Newest(acc)), c).1 <==> c !in acc
  {
    if c in acc {
      var i :| 0 <= i < |acc| && acc[i] == c;
      EvictedIsStale(acc, i);
    } else {
      MaxIsLargest(acc);
      assert forall x :: x in Newest(acc) ==> x in acc;
    }
  }

  lemma NothingYet(cs: seq<nat>)
    ensures Max([]) == 0 && Newest([]) == [] && InOrder([], cs[..0])
  {
  }

  ghost predicate InOrder(acc: seq<nat>, arrived: seq<nat>) {
    Increasing(acc) && SameElements(acc, arrived)
  }

  lemma {:induction false} AcceptedInOrder(cs: seq<nat>, k: nat)
    requires FirstArrivalsIncrease(cs) && k <= |cs|
    ensures InOrder(Accepted(cs, k), cs[..k])
    decreases k, 0
  {
    hide Decide, InOrder, FirstArrivalsIncrease;
    if k == 0 {
      NothingYet(cs);
    } else {
      AcceptedInOrder(cs, k - 1);
      AcceptedOnFirstArrival(cs, k - 1);
      PushInOrder(cs, k, Accepted(cs, k - 1), Accepted(cs, k));
    }
  }

  lemma PushInOrder(cs: seq<nat>, k: nat, acc: seq<nat>, acc': seq<nat>)
    requires FirstArrivalsIncrease(cs) && 0 < k <= |cs|
    requires InOrder(acc, cs[..k - 1])
    requires acc' == if cs[k - 1] in cs[..k - 1] then acc else acc + [cs[k - 1]]
    ensures InOrder(acc', cs[..k])
  {
    assert cs[..k] == cs[..k - 1] + [cs[k - 1]];
    if cs[k - 1] !in cs[..k - 1] {
      forall i | 0 <= i < |acc| ensures acc[i] < cs[k - 1] { assert acc[i] in cs[..k - 1]; }
    }
  }

  /** In order of first arrival, a counter is accepted exactly the first time it arrives. */
  lemma {:induction false} AcceptedOnFirstArrival(cs: seq<nat>, k: nat)
    requires FirstArrivalsIncrease(cs) && k < |cs|
    ensures Accepts(cs, k) <==> cs[k] !in cs[..k]
    decreases k, 1
  {
    AcceptedInOrder(cs, k);
    WindowRemembers(cs, k);
    var acc := Accepted(cs, k);
    if cs[k] !in acc {
      forall i | 0 <= i < |acc| ensures acc[i] < cs[k] { assert acc[i] in cs[..k]; }
    }
    DecideInOrder(acc, cs[k]);
  }

  /** What left an increasing window is 1024 or more below its maximum. */
  lemma EvictedIsStale(acc: seq<nat>, i: nat)
    requires Increasing(acc) && i < |acc|
    ensures acc[i] in Newest(acc) || acc[i] + MAX_ENTRIES <= Max(acc)
  {
    var seen := Newest(acc);
    if |acc| - i <= MAX_ENTRIES {
      assert seen[i - (|acc| - |seen|)] == acc[i];
    } else {
      IncreasingGap(acc, i, |acc| - 1);
      MaxIsLargest(acc);
    }
  }

  // ----- out of order, the window can accept one counter twice

  /** 2000 down to 977, then 2001, then 2000 again. */
  function OutOfOrder(): seq<nat> {
    seq(MAX_ENTRIES, i => if i <= 2000 then 2000 - i else 0) + [2001, 2000]
  }

  lemma {:induction false} DescentAccepted(k: nat)
    requires k <= MAX_ENTRIES
    ensures Run(OutOfOrder(), k).window == Window(if k == 0 then 0 else 2000, OutOfOrder()[..k])
  {
    hide Decide;
    if k > 0 {
      DescentAccepted(k - 1);
      var cs := OutOfOrder();
      assert cs[..k] == cs[..k - 1] + [cs[k - 1]];
      NewOfDescent(k);
      DecideNew(Run(cs, k - 1).window, cs[k - 1]);
    }
  }

  lemma NewOfDescent(k: nat)
    requires 0 < k <= MAX_ENTRIES
    ensures OutOfOrder()[k - 1] !in OutOfOrder()[..k - 1] && OutOfOrder()[k - 1] == 2001 - k
  {
  }

  lemma DecideNew(w: Window, counter: nat)
    requires counter !in w.seen && |w.seen| < MAX_ENTRIES && counter + MAX_ENTRIES > w.lastCounter
    ensures Decide(w, counter)
      == (Window(if counter > w.lastCounter then counter else w.lastCounter, w.seen + [counter]), true)
  {
  }

  lemma OutOfOrderAcceptsTwice()
    ensures var cs := OutOfOrder();
      && cs[0] == cs[MAX_ENTRIES + 1]
      && Accepts(cs, 0)
      && Accepts(cs, MAX_ENTRIES + 1)
  {
    var cs := OutOfOrder();
    DescentAccepted(MAX_ENTRIES);
    var w := Run(cs, MAX_ENTRIES).window;
    assert cs[MAX_ENTRIES] == 2001 && 2001 !in w.seen;
    assert Run(cs, MAX_ENTRIES + 1).window == Window(2001, (w.seen + [2001])[1..]);
    assert cs[MAX_ENTRIES + 1] == 2000 && 2000 !in (w.seen + [2001])[1..];
  }
}
