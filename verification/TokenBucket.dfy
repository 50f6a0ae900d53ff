/** The per-device rate limiter of `auth.rs`, with `f64` read as `real`. */
module TokenBucket {

  datatype Bucket = Bucket(capacity: nat, refillPerSec: nat, tokens: real, lastRefillMs: nat) {
    predicate Valid() { 1 <= capacity && 0.0 <= tokens <= capacity as real }
    predicate Full() { Valid() && tokens == capacity as real }
  }

  /** What flows in over a stretch of milliseconds. */
  function Refill(refillPerSec: nat, ms: nat): (r: real)
    ensures r >= 0.0
  {
    if ms == 0 then 0.0 else Refill(refillPerSec, ms - 1) + refillPerSec as real / 1000.0
  }

  lemma RefillNothing(refillPerSec: nat)
    ensures Refill(refillPerSec, 0) == 0.0
  {
  }

  lemma {:induction false} RefillAdds(refillPerSec: nat, a: nat, b: nat)
    ensures Refill(refillPerSec, a + b) == Refill(refillPerSec, a) + Refill(refillPerSec, b)
  {
    if b > 0 { RefillAdds(refillPerSec, a, b - 1); }
  }

  /** The closed form the code computes with. */
  lemma {:induction false} RefillIs(refillPerSec: nat, ms: nat)
    ensures Refill(refillPerSec, ms) == ms as real / 1000.0 * refillPerSec as real
  {
    if ms > 0 {
      RefillIs(refillPerSec, ms - 1);
      var r := refillPerSec as real;
      assert ms as real / 1000.0 == (ms - 1) as real / 1000.0 + 1.0 / 1000.0;
      assert ms as real / 1000.0 * r == (ms - 1) as real / 1000.0 * r + 1.0 / 1000.0 * r;
    }
  }

  function Create(capacity: nat, refillPerSec: nat, nowMs: nat): (b: Bucket)
    ensures b.Full()
  {
    var c := if capacity < 1 then 1 else capacity;
    Bucket(c, refillPerSec, c as real, nowMs)
  }

  function Refreshed(b: Bucket, nowMs: nat): Bucket {
    if nowMs > b.lastRefillMs then
      var filled := b.tokens + Refill(b.refillPerSec, nowMs - b.lastRefillMs);
      b.(tokens := if filled < b.capacity as real then filled else b.capacity as real, lastRefillMs := nowMs)
    else b
  }

  function Take(b: Bucket, nowMs: nat): (Bucket, bool) {
    var r := Refreshed(b, nowMs);
    if r.tokens >= 1.0 then (r.(tokens := r.tokens - 1.0), true) else (r, false)
  }

  class RateLimiter {
    var capacity: nat
    var refillPerSec: nat
    var tokens: real
    var lastRefillMs: nat

    function State(): Bucket reads this { Bucket(capacity, refillPerSec, tokens, lastRefillMs) }

    constructor (capacity: nat, refillPerSec: nat, nowMs: nat)
      ensures State() == Create(capacity, refillPerSec, nowMs)
    {
      this.capacity := if capacity < 1 then 1 else capacity;
      this.refillPerSec := refillPerSec;
      tokens := (if capacity < 1 then 1 else capacity) as real;
      lastRefillMs := nowMs;
    }

    method TryTake(nowMs: nat) returns (granted: bool)
      modifies this`tokens, this`lastRefillMs
      ensures (State(), granted) == Take(old(State()), nowMs)
    {
      hide Refill;
      if nowMs > lastRefillMs {
        var elapsed := (nowMs - lastRefillMs) as real / 1000.0;
        assert Refill(refillPerSec, nowMs - lastRefillMs) == elapsed * refillPerSec as real by {
          RefillIs(refillPerSec, nowMs - lastRefillMs);
        }
        var filled := tokens + elapsed * refillPerSec as real;
        tokens := if filled < capacity as real then filled else capacity as real;
        lastRefillMs := nowMs;
      }
      if tokens >= 1.0 {
        tokens := tokens - 1.0;
        granted := true;
      } else {
        granted := false;
      }
    }
  }

  // ----- whole runs: request k carries the clock reading ts[k]

  function After(b: Bucket, ts: seq<nat>, k: nat): Bucket
    requires k <= |ts|
  {
    if k == 0 then b else Take(After(b, ts, k - 1), ts[k - 1]).0
  }

  /** What the bucket answers to each request. */
  function Answers(b: Bucket, ts: seq<nat>): (c: seq<bool>)
    ensures |c| == |ts|
  {
    seq(|ts|, k requires 0 <= k < |ts| => Take(After(b, ts, k), ts[k]).1)
  }

  /** Grants among the first k requests. */
  function Granted(c: seq<bool>, k: nat): nat
    requires k <= |c|
  {
    if k == 0 then 0 else Granted(c, k - 1) + if c[k - 1] then 1 else 0
  }

  /** Grants among requests i up to but not including j. */
  function Window(c: seq<bool>, i: nat, j: nat): real
    requires i <= j <= |c|
  {
    (Granted(c, j) - Granted(c, i)) as real
  }

  lemma WindowStep(c: seq<bool>, i: nat, j: nat)
    requires i <= j < |c|
    ensures Window(c, i, i) == 0.0
    ensures Window(c, i, j + 1) == Window(c, i, j) + if c[j] then 1.0 else 0.0
  {
  }

  /** The latest clock reading seen up to request k; ts[k] itself when the clock never runs back. */
  function Clock(start: nat, ts: seq<nat>, k: nat): (t: nat)
    requires k < |ts|
    ensures start <= t && ts[k] <= t
  {
    var before := if k == 0 then start else Clock(start, ts, k - 1);
    if ts[k] > before then ts[k] else before
  }

  lemma {:induction false} ClockMonotone(start: nat, ts: seq<nat>, i: nat, j: nat)
    requires i <= j < |ts|
    ensures Clock(start, ts, i) <= Clock(start, ts, j)
  {
    if i < j { ClockMonotone(start, ts, i, j - 1); }
  }

  lemma {:induction false} ClockIsNow(start: nat, ts: seq<nat>, k: nat)
    requires k < |ts| && start <= ts[0]
    requires forall i :: 0 < i < |ts| ==> ts[i - 1] <= ts[i]
    ensures Clock(start, ts, k) == ts[k]
  {
    if k > 0 { ClockIsNow(start, ts, k - 1); }
  }

  function Elapsed(start: nat, ts: seq<nat>, i: nat, j: nat): nat
    requires i <= j < |ts|
  {
    ClockMonotone(start, ts, i, j);
    Clock(start, ts, j) - Clock(start, ts, i)
  }

  /** What the window from request i to request j may grant. */
  ghost function Allowance(b: Bucket, ts: seq<nat>, i: nat, j: nat): real
    requires i <= j < |ts|
  {
    b.capacity as real + Refill(b.refillPerSec, Elapsed(b.lastRefillMs, ts, i, j))
  }

  /** A choice of grants obeys the rate when every window of requests does. */
  ghost predicate ObeysRate(c: seq<bool>, b: Bucket, ts: seq<nat>)
    requires |c| == |ts|
  {
    forall i, j :: 0 <= i <= j < |ts| ==>
      Window(c, i, j + 1) <= Allowance(b, ts, i, j)
  }

  lemma {:induction false} AfterKeeps(b: Bucket, ts: seq<nat>, k: nat)
    requires b.Valid() && k <= |ts|
    ensures After(b, ts, k).Valid()
    ensures After(b, ts, k).capacity == b.capacity && After(b, ts, k).refillPerSec == b.refillPerSec
    ensures After(b, ts, k).lastRefillMs == if k == 0 then b.lastRefillMs else Clock(b.lastRefillMs, ts, k - 1)
  {
    hide Refill;
    if k > 0 {
      AfterKeeps(b, ts, k - 1);
      var prev := After(b, ts, k - 1);
      if ts[k - 1] > prev.lastRefillMs { RefillAdds(b.refillPerSec, ts[k - 1] - prev.lastRefillMs, 0); }
    }
  }

  // ----- the accounting of a run, away from the bucket that keeps it

  /** Levels found at each request: a grant costs one, inflow is cut at capacity. */
  ghost predicate Ledger(capacity: real, flow: seq<real>, level: seq<real>, c: seq<bool>) {
    && |flow| == |level| == |c|
    && (forall k :: 0 <= k < |c| ==> 0.0 <= level[k] <= capacity && (c[k] <==> level[k] >= 1.0))
    && (forall k :: 0 < k < |c| ==> level[k] == Cut(capacity, level[k - 1], c[k - 1], flow[k]))
  }

  function Cut(capacity: real, level: real, granted: bool, flow: real): real {
    var filled := level - (if granted then 1.0 else 0.0) + flow;
    if filled < capacity then filled else capacity
  }

  /** Inflow after request i up to request j. */
  ghost function Inflow(flow: seq<real>, i: nat, j: nat): real
    requires i <= j < |flow|
  {
    if i == j then 0.0 else Inflow(flow, i, j - 1) + flow[j]
  }

  /** The level after a window is paid for by capacity and inflow. */
  lemma {:induction false} Conservation(capacity: real, flow: seq<real>, level: seq<real>, c: seq<bool>, i: nat, j: nat)
    requires Ledger(capacity, flow, level, c) && i <= j < |c|
    ensures level[j] + Window(c, i, j) <= capacity + Inflow(flow, i, j)
  {
    if i == j {
      WindowStep(c, i, j);
    } else {
      Conservation(capacity, flow, level, c, i, j - 1);
      WindowStep(c, i, j - 1);
    }
  }

  /** Some request s up to k found the bucket full, and the level is exact since then. */
  lemma {:induction false} SinceFull(capacity: real, flow: seq<real>, level: seq<real>, c: seq<bool>, k: nat)
    returns (s: nat)
    requires Ledger(capacity, flow, level, c) && k < |c| && level[0] == capacity
    ensures s <= k
    ensures level[k] == capacity + Inflow(flow, s, k) - Window(c, s, k)
  {
    if level[k] == capacity {
      s := k;
      WindowStep(c, k, k);
    } else {
      s := SinceFull(capacity, flow, level, c, k - 1);
      WindowStep(c, s, k - 1);
    }
  }

  lemma {:induction false} LedgerStaysAhead(
      capacity: real, flow: seq<real>, level: seq<real>, g: seq<bool>, c: seq<bool>, k: nat)
    requires Ledger(capacity, flow, level, g) && |c| == |g| && k <= |c|
    requires |g| > 0 ==> level[0] == capacity
    requires forall i, j :: 0 <= i <= j < |c| ==> Window(c, i, j + 1) <= capacity + Inflow(flow, i, j)
    ensures Granted(c, k) <= Granted(g, k)
  {
    if k > 0 && g[k - 1] {
      LedgerStaysAhead(capacity, flow, level, g, c, k - 1);
    } else if k > 0 {
      var s := SinceFull(capacity, flow, level, g, k - 1);
      LedgerStaysAhead(capacity, flow, level, g, c, s);
      assert Window(c, s, k - 1 + 1) < Window(g, s, k - 1) + 1.0;
    }
  }

  /** The level request k finds. */
  function Level(b: Bucket, ts: seq<nat>, k: nat): real
    requires k < |ts|
  {
    Refreshed(After(b, ts, k), ts[k]).tokens
  }

  function Flow(b: Bucket, ts: seq<nat>, k: nat): real
    requires k < |ts|
  {
    var before := if k == 0 then b.lastRefillMs else Clock(b.lastRefillMs, ts, k - 1);
    Refill(b.refillPerSec, Clock(b.lastRefillMs, ts, k) - before)
  }

  lemma LevelBounds(b: Bucket, ts: seq<nat>, k: nat)
    requires b.Valid() && k < |ts|
    ensures 0.0 <= Level(b, ts, k) <= b.capacity as real
    ensures Answers(b, ts)[k] <==> Level(b, ts, k) >= 1.0
    ensures k == 0 && b.Full() ==> Level(b, ts, k) == b.capacity as real
  {
    hide Refill;
    AfterKeeps(b, ts, k);
  }

  lemma LevelStep(b: Bucket, ts: seq<nat>, k: nat)
    requires b.Valid() && 0 < k < |ts|
    ensures Level(b, ts, k) == Cut(b.capacity as real, Level(b, ts, k - 1), Answers(b, ts)[k - 1], Flow(b, ts, k))
  {
    hide Refill, Clock, After, Answers, Refreshed;
    AfterKeeps(b, ts, k);
    AfterTake(b, ts, k - 1);
    ClockStep(b, ts, k);
    RefreshedLevel(After(b, ts, k), ts[k]);
  }

  lemma RefreshedLevel(b: Bucket, nowMs: nat)
    requires b.Valid()
    ensures var filled := b.tokens + Refill(b.refillPerSec, if nowMs > b.lastRefillMs then nowMs - b.lastRefillMs else 0);
      Refreshed(b, nowMs).tokens == if filled < b.capacity as real then filled else b.capacity as real
  {
    hide Refill;
    RefillNothing(b.refillPerSec);
  }

  lemma AfterTake(b: Bucket, ts: seq<nat>, k: nat)
    requires b.Valid() && k < |ts|
    ensures After(b, ts, k + 1).tokens == Level(b, ts, k) - if Answers(b, ts)[k] then 1.0 else 0.0
  {
    hide Refill;
  }

  lemma ClockStep(b: Bucket, ts: seq<nat>, k: nat)
    requires 0 < k < |ts|
    ensures var before := Clock(b.lastRefillMs, ts, k - 1);
      Clock(b.lastRefillMs, ts, k) == if ts[k] > before then ts[k] else before
  {
  }

  lemma LedgerOfRun(b: Bucket, ts: seq<nat>) returns (flow: seq<real>, level: seq<real>)
    requires b.Valid()
    ensures Ledger(b.capacity as real, flow, level, Answers(b, ts))
    ensures b.Full() && ts != [] ==> level[0] == b.capacity as real
    ensures forall i, j :: 0 <= i <= j < |ts| ==> Allowance(b, ts, i, j) == b.capacity as real + Inflow(flow, i, j)
  {
    hide Refill, Clock, Level, Flow;
    flow := seq(|ts|, k requires 0 <= k < |ts| => Flow(b, ts, k));
    level := seq(|ts|, k requires 0 <= k < |ts| => Level(b, ts, k));
    forall k | 0 <= k < |ts|
      ensures 0.0 <= level[k] <= b.capacity as real && (Answers(b, ts)[k] <==> level[k] >= 1.0)
      ensures k > 0 ==> level[k] == Cut(b.capacity as real, level[k - 1], Answers(b, ts)[k - 1], flow[k])
      ensures k == 0 && b.Full() ==> level[k] == b.capacity as real
    {
      LevelBounds(b, ts, k);
      if k > 0 { LevelStep(b, ts, k); }
    }
    forall i, j | 0 <= i <= j < |ts|
      ensures Allowance(b, ts, i, j) == b.capacity as real + Inflow(flow, i, j)
    {
      InflowIsRefill(b, ts, flow, i, j);
    }
  }

  lemma {:induction false} InflowIsRefill(b: Bucket, ts: seq<nat>, flow: seq<real>, i: nat, j: nat)
    requires |flow| == |ts| && forall k :: 0 <= k < |ts| ==> flow[k] == Flow(b, ts, k)
    requires i <= j < |ts|
    ensures Inflow(flow, i, j) == Refill(b.refillPerSec, Elapsed(b.lastRefillMs, ts, i, j))
  {
    if i < j {
      InflowIsRefill(b, ts, flow, i, j - 1);
      ClockMonotone(b.lastRefillMs, ts, i, j - 1);
      RefillAdds(b.refillPerSec, Elapsed(b.lastRefillMs, ts, i, j - 1),
                 Clock(b.lastRefillMs, ts, j) - Clock(b.lastRefillMs, ts, j - 1));
    }
  }

  /** Safety: no window of a run grants more than capacity plus what flowed in meanwhile. */
  lemma NeverExceedsRate(b: Bucket, ts: seq<nat>)
    requires b.Valid()
    ensures ObeysRate(Answers(b, ts), b, ts)
  {
    var flow, level := LedgerOfRun(b, ts);
    var c := Answers(b, ts);
    forall i, j | 0 <= i <= j < |ts|
      ensures Window(c, i, j + 1) <= Allowance(b, ts, i, j)
    {
      Conservation(b.capacity as real, flow, level, c, i, j);
      WindowStep(c, i, j);
    }
  }

  /** Greedy stays ahead: at every point of the run no rate-obeying choice has granted more. */
  lemma StaysAhead(b: Bucket, ts: seq<nat>, c: seq<bool>, k: nat)
    requires b.Full() && |c| == |ts| && ObeysRate(c, b, ts) && k <= |ts|
    ensures Granted(c, k) <= Granted(Answers(b, ts), k)
  {
    if k > 0 {
      var flow, level := LedgerOfRun(b, ts);
      LedgerStaysAhead(b.capacity as real, flow, level, Answers(b, ts), c, k);
    }
  }

  /** Every window of requests is granted at most the capacity it was set up with, one at least, and the rate per second
      times the seconds passed. */
  ghost predicate WithinLimit(c: seq<bool>, capacity: nat, refillPerSec: nat, start: nat, ts: seq<nat>)
    requires |c| == |ts|
  {
    forall i, j :: 0 <= i <= j < |ts| ==>
      Window(c, i, j + 1)
      <= (if capacity == 0 then 1 else capacity) as real
         + Elapsed(start, ts, i, j) as real / 1000.0 * refillPerSec as real
  }

  lemma FreshLimit(c: seq<bool>, capacity: nat, refillPerSec: nat, start: nat, ts: seq<nat>)
    requires |c| == |ts|
    ensures ObeysRate(c, Create(capacity, refillPerSec, start), ts) <==> WithinLimit(c, capacity, refillPerSec, start, ts)
  {
    hide Refill, Window, Elapsed;
    var b := Create(capacity, refillPerSec, start);
    forall i, j | 0 <= i <= j < |ts|
      ensures Allowance(b, ts, i, j)
           == (if capacity == 0 then 1 else capacity) as real
              + Elapsed(start, ts, i, j) as real / 1000.0 * refillPerSec as real
    {
      RefillIs(refillPerSec, Elapsed(start, ts, i, j));
    }
  }

  /** A fresh limiter grants the pointwise maximum of all choices within its limit, and is one of them. */
  lemma GreedyIsMaximum(capacity: nat, refillPerSec: nat, start: nat, ts: seq<nat>)
    ensures var answers := Answers(Create(capacity, refillPerSec, start), ts);
      && WithinLimit(answers, capacity, refillPerSec, start, ts)
      && forall c: seq<bool>, k: nat | |c| == |ts| && WithinLimit(c, capacity, refillPerSec, start, ts) && k <= |ts| ::
           Granted(c, k) <= Granted(answers, k)
  {
    hide WithinLimit, ObeysRate, Answers, Create, Granted;
    var b := Create(capacity, refillPerSec, start);
    NeverExceedsRate(b, ts);
    FreshLimit(Answers(b, ts), capacity, refillPerSec, start, ts);
    forall c: seq<bool>, k: nat | |c| == |ts| && WithinLimit(c, capacity, refillPerSec, start, ts) && k <= |ts|
      ensures Granted(c, k) <= Granted(Answers(b, ts), k)
    {
      FreshLimit(c, capacity, refillPerSec, start, ts);
      StaysAhead(b, ts, c, k);
    }
  }
}
