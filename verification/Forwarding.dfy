/**
 * The forward batcher of `apiwrap.cpp`, with the grouping of `history_item_helpers.cpp` in front of it:
 * items in position order become requests of one source peer and one ephemeral flag each, and the stars
 * approved for the whole are paid batch by batch.
 */
module Forwarding {
  type Peer = nat

  /** `lookup` is the id an ephemeral item is known by, 0 when there is none. */
  datatype Item = Item(id: int, peer: Peer, ephemeral: bool, lookup: int)

  datatype Range = Range(items: seq<Item>, fromEphemeral: bool)

  /** One `MTPmessages_ForwardMessages`. */
  datatype Batch = Batch(peer: Peer, fromEphemeral: bool, ids: seq<int>, randomIds: seq<int>, starsPaid: nat)

  // ----- what is forwarded, and how it splits

  /** An ephemeral item that cannot be looked up is left out. */
  function Sendable(items: seq<Item>, k: nat): seq<Item>
    requires k <= |items|
  {
    if k == 0 then []
    else if items[k - 1].ephemeral && items[k - 1].lookup == 0 then Sendable(items, k - 1)
    else Sendable(items, k - 1) + [items[k - 1]]
  }

  function SentId(item: Item): int {
    if item.ephemeral then item.lookup else item.id
  }

  function SentIds(items: seq<Item>): seq<int> {
    seq(|items|, i requires 0 <= i < |items| => SentId(items[i]))
  }

  predicate SameSource(a: Item, b: Item) {
    a.peer == b.peer && a.ephemeral == b.ephemeral
  }

  predicate Uniform(run: seq<Item>) {
    |run| > 0 && forall i :: 0 <= i < |run| ==> SameSource(run[0], run[i])
  }

  function Flat(runs: seq<seq<Item>>, k: nat): seq<Item>
    requires k <= |runs|
  {
    if k == 0 then [] else Flat(runs, k - 1) + runs[k - 1]
  }

  /** `runs` cuts the list into maximal stretches of one source: nothing lost, repeated or moved. */
  predicate Split(list: seq<Item>, runs: seq<seq<Item>>) {
    && Flat(runs, |runs|) == list
    && (forall i :: 0 <= i < |runs| ==> Uniform(runs[i]))
    && forall i :: 0 <= i < |runs| ==>
         && |runs[i]| > 0
         && (i > 0 ==> |runs[i - 1]| > 0 && !SameSource(runs[i - 1][0], runs[i][0]))
  }

  lemma {:induction false} FlatPrefix(runs: seq<seq<Item>>, more: seq<seq<Item>>, k: nat)
    requires k <= |runs|
    ensures Flat(runs + more, k) == Flat(runs, k)
  {
    if k > 0 {
      FlatPrefix(runs, more, k - 1);
    }
  }

  lemma FlatLast(runs: seq<seq<Item>>)
    requires |runs| > 0
    ensures Flat(runs, |runs|) == Flat(runs[..|runs| - 1], |runs| - 1) + runs[|runs| - 1]
  {
    hide Flat;
    FlatNext(runs, |runs| - 1);
    assert runs[..|runs| - 1] + [runs[|runs| - 1]] == runs;
    FlatPrefix(runs[..|runs| - 1], [runs[|runs| - 1]], |runs| - 1);
  }

  lemma FlatNext(runs: seq<seq<Item>>, k: nat)
    requires k < |runs|
    ensures Flat(runs, k + 1) == Flat(runs, k) + runs[k]
  {
  }

  lemma SplitInit(list: seq<Item>, runs: seq<seq<Item>>)
    requires Split(list, runs) && |runs| > 0
    ensures var n := |list| - |runs[|runs| - 1]|;
      && 0 <= n < |list| && Split(list[..n], runs[..|runs| - 1])
      && runs[|runs| - 1] == list[n..]
  {
    hide Uniform, SameSource;
    FlatLast(runs);
    var init := runs[..|runs| - 1];
    var n := |list| - |runs[|runs| - 1]|;
    assert |runs[|runs| - 1]| > 0 by { UniformSome(runs[|runs| - 1]); }
    assert list[..n] == Flat(init, |init|);
    assert list[n..] == runs[|runs| - 1];
  }

  lemma UniformSome(run: seq<Item>)
    requires Uniform(run)
    ensures |run| > 0
  {
  }

  lemma BeforeLastDiffers(list: seq<Item>, runs: seq<seq<Item>>)
    requires Split(list, runs) && |runs| > 0
    ensures var n := |list| - |runs[|runs| - 1]|;
      0 <= n < |list| && (if |runs| == 1 then n == 0 else n > 0 && !SameSource(list[n - 1], list[n]))
  {
    SplitInit(list, runs);
    var n := |list| - |runs[|runs| - 1]|;
    if |runs| > 1 {
      var w := runs[|runs| - 2];
      SplitInit(list[..n], runs[..|runs| - 1]);
      assert w[|w| - 1] == list[n - 1] && runs[|runs| - 1][0] == list[n];
    } else {
      assert runs[..|runs| - 1] == [];
    }
  }

  lemma InsideLastSame(list: seq<Item>, runs: seq<seq<Item>>, i: nat)
    requires Split(list, runs) && |runs| > 0 && i + 1 < |list|
    ensures |list| - |runs[|runs| - 1]| <= i ==> SameSource(list[i], list[i + 1])
  {
    SplitInit(list, runs);
    var n := |list| - |runs[|runs| - 1]|;
    if n <= i {
      assert runs[|runs| - 1][i - n] == list[i] && runs[|runs| - 1][i + 1 - n] == list[i + 1];
    }
  }

  /** The last stretch of one split is no longer than that of another. */
  lemma LastRunIsMaximal(list: seq<Item>, a: seq<seq<Item>>, b: seq<seq<Item>>)
    requires Split(list, a) && Split(list, b) && |a| > 0 && |b| > 0
    ensures |b[|b| - 1]| <= |a[|a| - 1]|
  {
    hide Split, SameSource;
    BeforeLastDiffers(list, a);
    BeforeLastDiffers(list, b);
    var n := |list| - |a[|a| - 1]|;
    if n > 0 {
      InsideLastSame(list, b, n - 1);
    }
  }

  lemma EmptyListSplits(list: seq<Item>, runs: seq<seq<Item>>)
    requires Split(list, runs)
    ensures runs == [] <==> list == []
  {
    hide Uniform, SameSource;
    if runs != [] {
      SplitInit(list, runs);
    }
  }

  /** There is exactly one way to split a list. */
  lemma {:induction false} SplitIsUnique(list: seq<Item>, a: seq<seq<Item>>, b: seq<seq<Item>>)
    requires Split(list, a) && Split(list, b)
    ensures a == b
    decreases |a|
  {
    hide Uniform, SameSource;
    EmptyListSplits(list, a);
    EmptyListSplits(list, b);
    if a != [] {
      LastRunIsMaximal(list, a, b);
      LastRunIsMaximal(list, b, a);
      SplitInit(list, a);
      SplitInit(list, b);
      var n := |list| - |a[|a| - 1]|;
      SplitIsUnique(list[..n], a[..|a| - 1], b[..|b| - 1]);
      assert a == a[..|a| - 1] + [a[|a| - 1]];
      assert b == b[..|b| - 1] + [b[|b| - 1]];
    }
  }

  // ----- the plan: one batch per stretch

  function Min(a: nat, b: nat): nat {
    if a < b then a else b
  }

  /** How many items the first `k` stretches hold. */
  function Count(runs: seq<seq<Item>>, k: nat): nat
    requires k <= |runs|
  {
    if k == 0 then 0 else Count(runs, k - 1) + |runs[k - 1]|
  }

  /** The stars left after the first `k` batches. */
  function Left(runs: seq<seq<Item>>, approved: nat, perMessage: nat, k: nat): nat
    requires k <= |runs|
  {
    if k == 0 then approved
    else
      var before := Left(runs, approved, perMessage, k - 1);
      before - Min(before, |runs[k - 1]| * perMessage)
  }

  /** The batch of stretch `j`: its own peer, flag, ids and random ids, and its stars while they last. */
  predicate PlannedBatch(runs: seq<seq<Item>>, randomIds: seq<int>, approved: nat, perMessage: nat, j: nat, batch: Batch)
    requires j < |runs| && Uniform(runs[j]) && Count(runs, |runs|) <= |randomIds|
  {
    CountGrows(runs, j + 1, |runs|);
    && (forall i :: 0 <= i < |runs[j]| ==> runs[j][i].peer == batch.peer && runs[j][i].ephemeral == batch.fromEphemeral)
    && batch.ids == SentIds(runs[j])
    && batch.randomIds == randomIds[Count(runs, j)..Count(runs, j + 1)]
    && batch.starsPaid == Min(Left(runs, approved, perMessage, j), |runs[j]| * perMessage)
  }

  lemma {:induction false} CountGrows(runs: seq<seq<Item>>, j: nat, k: nat)
    requires j <= k <= |runs|
    ensures Count(runs, j) <= Count(runs, k)
  {
    if j < k {
      CountGrows(runs, j, k - 1);
    }
  }

  predicate Planned(sent: seq<Batch>, runs: seq<seq<Item>>, randomIds: seq<int>, approved: nat, perMessage: nat) {
    && |sent| == |runs| && Count(runs, |runs|) <= |randomIds|
    && forall j :: 0 <= j < |runs| ==> Uniform(runs[j]) && PlannedBatch(runs, randomIds, approved, perMessage, j, sent[j])
  }

  lemma {:induction false} CountIsLength(runs: seq<seq<Item>>, k: nat)
    requires k <= |runs|
    ensures Count(runs, k) == |Flat(runs, k)|
  {
    if k > 0 {
      CountIsLength(runs, k - 1);
    }
  }

  lemma Spend(approved: nat, a: nat, b: nat)
    ensures Min(approved, 0) == 0
    ensures (approved - Min(approved, a)) - Min(approved - Min(approved, a), b) == approved - Min(approved, a + b)
  {
  }

  lemma Price(a: nat, b: nat, perMessage: nat)
    ensures (a + b) * perMessage == a * perMessage + b * perMessage
  {
  }

  lemma {:induction false} LeftIs(runs: seq<seq<Item>>, approved: nat, perMessage: nat, k: nat)
    requires k <= |runs|
    ensures Left(runs, approved, perMessage, k) == approved - Min(approved, Count(runs, k) * perMessage)
  {
    hide Min;
    if k > 0 {
      LeftIs(runs, approved, perMessage, k - 1);
      Price(Count(runs, k - 1), |runs[k - 1]|, perMessage);
      Spend(approved, Count(runs, k - 1) * perMessage, |runs[k - 1]| * perMessage);
    } else {
      Spend(approved, 0, 0);
    }
  }

  lemma PlannedAt(sent: seq<Batch>, runs: seq<seq<Item>>, randomIds: seq<int>, approved: nat, perMessage: nat, j: nat)
    requires Planned(sent, runs, randomIds, approved, perMessage) && j < |runs|
    ensures |sent| == |runs| && 0 <= Count(runs, j) <= Count(runs, j + 1) <= Count(runs, |runs|) <= |randomIds|
    ensures sent[j].ids == SentIds(runs[j])
    ensures sent[j].randomIds == randomIds[Count(runs, j)..Count(runs, j + 1)]
    ensures sent[j].starsPaid == Min(Left(runs, approved, perMessage, j), |runs[j]| * perMessage)
  {
    hide Count, Left, SentIds, Min, Uniform;
    CountGrows(runs, j, j + 1);
    CountGrows(runs, j + 1, |runs|);
    assert PlannedBatch(runs, randomIds, approved, perMessage, j, sent[j]);
  }

  function Paid(sent: seq<Batch>, k: nat): nat
    requires k <= |sent|
  {
    if k == 0 then 0 else Paid(sent, k - 1) + sent[k - 1].starsPaid
  }

  lemma {:induction false} PaidAndLeft(sent: seq<Batch>, runs: seq<seq<Item>>, randomIds: seq<int>, approved: nat,
                                       perMessage: nat, k: nat)
    requires Planned(sent, runs, randomIds, approved, perMessage) && k <= |runs|
    ensures |sent| == |runs| && Paid(sent, k) + Left(runs, approved, perMessage, k) == approved
  {
    hide Planned, PlannedBatch, Min;
    PlannedSize(sent, runs, randomIds, approved, perMessage);
    if k > 0 {
      PaidAndLeft(sent, runs, randomIds, approved, perMessage, k - 1);
      PlannedAt(sent, runs, randomIds, approved, perMessage, k - 1);
    }
  }

  /** The stars paid and the stars left make up the stars approved, and the whole is paid for at the price per
      message as far as the stars go. */
  lemma StarsAreConserved(list: seq<Item>, runs: seq<seq<Item>>, sent: seq<Batch>, randomIds: seq<int>,
                          approved: nat, perMessage: nat)
    requires Split(list, runs) && Planned(sent, runs, randomIds, approved, perMessage)
    ensures Paid(sent, |sent|) + Left(runs, approved, perMessage, |runs|) == approved
    ensures Paid(sent, |sent|) == Min(approved, |list| * perMessage)
  {
    hide Planned;
    PlannedSize(sent, runs, randomIds, approved, perMessage);
    PaidAndLeft(sent, runs, randomIds, approved, perMessage, |runs|);
    LeftIs(runs, approved, perMessage, |runs|);
    CountIsLength(runs, |runs|);
  }

  lemma PlannedSize(sent: seq<Batch>, runs: seq<seq<Item>>, randomIds: seq<int>, approved: nat, perMessage: nat)
    requires Planned(sent, runs, randomIds, approved, perMessage)
    ensures |sent| == |runs| && Count(runs, |runs|) <= |randomIds|
  {
  }

  function AllIds(sent: seq<Batch>, k: nat): seq<int>
    requires k <= |sent|
  {
    if k == 0 then [] else AllIds(sent, k - 1) + sent[k - 1].ids
  }

  function AllRandomIds(sent: seq<Batch>, k: nat): seq<int>
    requires k <= |sent|
  {
    if k == 0 then [] else AllRandomIds(sent, k - 1) + sent[k - 1].randomIds
  }

  lemma SentNone()
    ensures SentIds([]) == []
  {
  }

  lemma SentIdsOf(a: seq<Item>, b: seq<Item>)
    ensures SentIds(a + b) == SentIds(a) + SentIds(b)
  {
  }

  lemma {:induction false} IdsInOrder(sent: seq<Batch>, runs: seq<seq<Item>>, randomIds: seq<int>, approved: nat,
                                      perMessage: nat, k: nat)
    requires Planned(sent, runs, randomIds, approved, perMessage) && k <= |runs|
    ensures |sent| == |runs| && AllIds(sent, k) == SentIds(Flat(runs, k))
    ensures Count(runs, k) <= |randomIds| && AllRandomIds(sent, k) == randomIds[..Count(runs, k)]
  {
    hide Planned, PlannedBatch, SentIds;
    PlannedSize(sent, runs, randomIds, approved, perMessage);
    CountGrows(runs, k, |runs|);
    if k > 0 {
      IdsInOrder(sent, runs, randomIds, approved, perMessage, k - 1);
      PlannedAt(sent, runs, randomIds, approved, perMessage, k - 1);
      SentIdsOf(Flat(runs, k - 1), runs[k - 1]);
    } else {
      assert Flat(runs, 0) == [] && SentIds([]) == [] by { SentNone(); }
    }
  }

  /** At every place the id that goes out is the item's own, or, for an ephemeral item, the one that was looked up. */
  predicate OwnIds(list: seq<Item>, ids: seq<int>) {
    && |ids| == |list|
    && forall i :: 0 <= i < |list| ==> ids[i] == if list[i].ephemeral then list[i].lookup else list[i].id
  }

  /** The batches together carry every item once and in order, each under its own id and next to the random id drawn
      for it. */
  lemma ItemsAreConserved(list: seq<Item>, runs: seq<seq<Item>>, sent: seq<Batch>, randomIds: seq<int>,
                          approved: nat, perMessage: nat)
    requires Split(list, runs) && Planned(sent, runs, randomIds, approved, perMessage) && |randomIds| == |list|
    ensures OwnIds(list, AllIds(sent, |sent|)) && AllRandomIds(sent, |sent|) == randomIds
  {
    assert OwnIds(list, SentIds(list));
    hide Planned, SentIds;
    PlannedSize(sent, runs, randomIds, approved, perMessage);
    IdsInOrder(sent, runs, randomIds, approved, perMessage, |runs|);
    CountIsLength(runs, |runs|);
  }

  // ----- what can be sent

  lemma {:induction false} SendablePrefix(a: seq<Item>, b: seq<Item>, k: nat)
    requires k <= |a|
    ensures Sendable(a + b, k) == Sendable(a, k)
  {
    if k > 0 {
      SendablePrefix(a, b, k - 1);
    }
  }

  lemma {:induction false} SendableConcat(a: seq<Item>, b: seq<Item>, k: nat)
    requires k <= |b|
    ensures Sendable(a + b, |a| + k) == Sendable(a, |a|) + Sendable(b, k)
  {
    if k == 0 {
      SendablePrefix(a, b, |a|);
    } else {
      SendableConcat(a, b, k - 1);
    }
  }

  /** Sendable is a filter: part by part, down to one item, which is kept exactly when it is ordinary or was looked up. */
  lemma SendableFilters(a: seq<Item>, b: seq<Item>, x: Item)
    ensures Sendable(a + b, |a + b|) == Sendable(a, |a|) + Sendable(b, |b|)
    ensures Sendable([x], 1) == if x.ephemeral && x.lookup == 0 then [] else [x]
  {
    SendableConcat(a, b, |b|);
    assert Sendable([x], 0) == [];
  }

  lemma {:induction false} SendableLookedUp(items: seq<Item>, k: nat, i: nat)
    requires k <= |items| && i < |Sendable(items, k)|
    ensures Sendable(items, k)[i].ephemeral ==> Sendable(items, k)[i].lookup != 0
  {
    if i < |Sendable(items, k - 1)| {
      SendableLookedUp(items, k - 1, i);
    }
  }

  // ----- the grouping in front

  function Concat(ranges: seq<Range>, k: nat): seq<Item>
    requires k <= |ranges|
  {
    if k == 0 then [] else Concat(ranges, k - 1) + ranges[k - 1].items
  }

  predicate RangeOk(range: Range) {
    |range.items| > 0 && forall i :: 0 <= i < |range.items| ==> range.items[i].ephemeral == range.fromEphemeral
  }

  /** Neighbouring ranges differ in their flag. */
  predicate Grouped(list: seq<Item>, ranges: seq<Range>) {
    && Concat(ranges, |ranges|) == list
    && (forall i :: 0 <= i < |ranges| ==> RangeOk(ranges[i]))
    && forall i :: 0 <= i < |ranges| ==> i > 0 ==> ranges[i].fromEphemeral != ranges[i - 1].fromEphemeral
  }

  lemma {:induction false} ConcatPrefix(ranges: seq<Range>, more: seq<Range>, k: nat)
    requires k <= |ranges|
    ensures Concat(ranges + more, k) == Concat(ranges, k)
  {
    if k > 0 {
      ConcatPrefix(ranges, more, k - 1);
    }
  }

  lemma GroupNew(list: seq<Item>, ranges: seq<Range>, x: Item)
    requires Grouped(list, ranges) && (ranges == [] || ranges[|ranges| - 1].fromEphemeral != x.ephemeral)
    ensures Grouped(list + [x], ranges + [Range([x], x.ephemeral)])
  {
    ConcatPrefix(ranges, [Range([x], x.ephemeral)], |ranges|);
  }

  lemma GroupMore(list: seq<Item>, ranges: seq<Range>, x: Item)
    requires Grouped(list, ranges) && ranges != [] && ranges[|ranges| - 1].fromEphemeral == x.ephemeral
    ensures var last := ranges[|ranges| - 1];
      Grouped(list + [x], ranges[|ranges| - 1 := last.(items := last.items + [x])])
  {
    var last := ranges[|ranges| - 1];
    var init := ranges[..|ranges| - 1];
    var longer := last.(items := last.items + [x]);
    assert ranges == init + [last] && ranges[|ranges| - 1 := longer] == init + [longer];
    ConcatPrefix(init, [last], |init|);
    ConcatPrefix(init, [longer], |init|);
    assert Concat(init + [longer], |ranges|) == Concat(init, |init|) + longer.items;
    assert list == Concat(init, |init|) + last.items;
    assert RangeOk(last);
    assert RangeOk(longer);
  }

  /** `CollectForwardRanges` after its sort: `ordered` is in position order. */
  method CollectForwardRanges(ordered: seq<Item>) returns (ranges: seq<Range>)
    ensures Grouped(Sendable(ordered, |ordered|), ranges)
  {
    hide Grouped;
    ranges := [];
    assert Grouped([], []) by { GroupedNone(); }
    for k := 0 to |ordered|
      invariant Grouped(Sendable(ordered, k), ranges)
    {
      var item := ordered[k];
      if item.ephemeral && item.lookup == 0 { continue; }
      if ranges == [] || ranges[|ranges| - 1].fromEphemeral != item.ephemeral {
        GroupNew(Sendable(ordered, k), ranges, item);
        ranges := ranges + [Range([item], item.ephemeral)];
      } else {
        GroupMore(Sendable(ordered, k), ranges, item);
        var last := ranges[|ranges| - 1];
        ranges := ranges[|ranges| - 1 := last.(items := last.items + [item])];
      }
    }
  }

  lemma GroupedNone()
    ensures Grouped([], [])
  {
  }

  // ----- the sender

  /** What the lambda and the loops of `forwardMessages` share; `sent` is what went out. */
  datatype Pile = Pile(
    ids: seq<int>, randomIds: seq<int>, forwardFrom: Peer, fromEphemeral: bool,
    starsApproved: nat, requestsLeft: nat, sent: seq<Batch>)

  function Flush(s: Pile, perMessage: nat): Pile {
    if s.ids == [] then s
    else
      var paid := Min(s.starsApproved, |s.ids| * perMessage);
      s.(ids := [], randomIds := [], starsApproved := s.starsApproved - paid, requestsLeft := s.requestsLeft + 1,
         sent := s.sent + [Batch(s.forwardFrom, s.fromEphemeral, s.ids, s.randomIds, paid)])
  }

  function Take(s: Pile, item: Item, randomId: int, perMessage: nat): Pile {
    var t := if s.forwardFrom != item.peer then Flush(s, perMessage).(forwardFrom := item.peer) else s;
    t.(ids := t.ids + [if t.fromEphemeral then item.lookup else item.id], randomIds := t.randomIds + [randomId])
  }

  // ----- the sender follows the plan

  lemma SplitStart(list: seq<Item>, runs: seq<seq<Item>>, x: Item)
    requires Split(list, runs) && (runs == [] || !SameSource(runs[|runs| - 1][0], x))
    ensures Split(list + [x], runs + [[x]])
  {
    FlatPrefix(runs, [[x]], |runs|);
  }

  lemma SplitMore(list: seq<Item>, closed: seq<seq<Item>>, open: seq<Item>, x: Item)
    requires Split(list, closed + [open]) && SameSource(open[0], x)
    ensures Split(list + [x], closed + [open + [x]])
  {
    FlatPrefix(closed, [open], |closed|);
    FlatPrefix(closed, [open + [x]], |closed|);
    var before, after := closed + [open], closed + [open + [x]];
    assert Uniform(before[|closed|]);
    assert Uniform(after[|closed|]);
    forall i | 0 <= i < |after| ensures Uniform(after[i]) {
      if i < |closed| { assert Uniform(before[i]); }
    }
    forall i | 0 < i < |after| ensures !SameSource(after[i - 1][0], after[i][0]) {
      assert !SameSource(before[i - 1][0], before[i][0]);
    }
  }

  lemma {:induction false} CountPrefix(runs: seq<seq<Item>>, more: seq<seq<Item>>, k: nat)
    requires k <= |runs|
    ensures Count(runs + more, k) == Count(runs, k)
  {
    if k > 0 {
      CountPrefix(runs, more, k - 1);
    }
  }

  lemma {:induction false} LeftPrefix(runs: seq<seq<Item>>, more: seq<seq<Item>>, approved: nat, perMessage: nat, k: nat)
    requires k <= |runs|
    ensures Left(runs + more, approved, perMessage, k) == Left(runs, approved, perMessage, k)
  {
    if k > 0 {
      LeftPrefix(runs, more, approved, perMessage, k - 1);
    }
  }

  lemma PlannedStays(runs: seq<seq<Item>>, open: seq<Item>, randomIds: seq<int>, approved: nat, perMessage: nat,
                     j: nat, batch: Batch)
    requires j < |runs| && Uniform(runs[j]) && Count(runs, |runs|) + |open| <= |randomIds|
    requires PlannedBatch(runs, randomIds, approved, perMessage, j, batch)
    ensures Count(runs + [open], |runs| + 1) <= |randomIds|
    ensures PlannedBatch(runs + [open], randomIds, approved, perMessage, j, batch)
  {
    hide SentIds, Min, Left, Uniform;
    CountPrefix(runs, [open], j);
    CountPrefix(runs, [open], j + 1);
    CountPrefix(runs, [open], |runs|);
    LeftPrefix(runs, [open], approved, perMessage, j);
    assert (runs + [open])[j] == runs[j];
  }

  lemma CountMore(runs: seq<seq<Item>>, open: seq<Item>)
    ensures Count(runs + [open], |runs|) == Count(runs, |runs|)
    ensures Count(runs + [open], |runs| + 1) == Count(runs, |runs|) + |open|
  {
    CountPrefix(runs, [open], |runs|);
  }

  lemma LeftMore(runs: seq<seq<Item>>, open: seq<Item>, approved: nat, perMessage: nat)
    ensures var before := Left(runs, approved, perMessage, |runs|);
      && Left(runs + [open], approved, perMessage, |runs|) == before
      && Left(runs + [open], approved, perMessage, |runs| + 1) == before - Min(before, |open| * perMessage)
  {
    hide Min;
    LeftPrefix(runs, [open], approved, perMessage, |runs|);
  }

  /** `batch` is what is due for `open` after `runs`. */
  predicate DueFor(runs: seq<seq<Item>>, open: seq<Item>, randomIds: seq<int>, approved: nat, perMessage: nat,
                   batch: Batch) {
    && Count(runs, |runs|) + |open| <= |randomIds|
    && (forall i :: 0 <= i < |open| ==> open[i].peer == batch.peer && open[i].ephemeral == batch.fromEphemeral)
    && batch.ids == SentIds(open)
    && batch.randomIds == randomIds[Count(runs, |runs|)..Count(runs, |runs|) + |open|]
    && batch.starsPaid == Min(Left(runs, approved, perMessage, |runs|), |open| * perMessage)
  }

  lemma PlannedNext(runs: seq<seq<Item>>, open: seq<Item>, randomIds: seq<int>, approved: nat, perMessage: nat,
                    batch: Batch)
    requires DueFor(runs, open, randomIds, approved, perMessage, batch) && Uniform(open)
    ensures Count(runs + [open], |runs| + 1) <= |randomIds|
    ensures PlannedBatch(runs + [open], randomIds, approved, perMessage, |runs|, batch)
  {
    hide SentIds, Min, Left, Uniform, Count;
    CountMore(runs, open);
    LeftMore(runs, open, approved, perMessage);
    var longer, n := runs + [open], |runs|;
    assert longer[n] == open && |longer| == n + 1;
    assert Count(longer, n) == Count(runs, n) && Count(longer, n + 1) == Count(runs, n) + |open|;
    assert Left(longer, approved, perMessage, n) == Left(runs, approved, perMessage, n);
  }

  lemma PlannedMore(sent: seq<Batch>, runs: seq<seq<Item>>, open: seq<Item>, randomIds: seq<int>, approved: nat,
                    perMessage: nat, batch: Batch)
    requires Planned(sent, runs, randomIds, approved, perMessage) && Uniform(open)
    requires DueFor(runs, open, randomIds, approved, perMessage, batch)
    ensures Planned(sent + [batch], runs + [open], randomIds, approved, perMessage)
  {
    hide PlannedBatch, SentIds, Min, Left, Uniform, Count;
    var longer := runs + [open];
    CountMore(runs, open);
    PlannedNext(runs, open, randomIds, approved, perMessage, batch);
    forall j | 0 <= j < |longer|
      ensures Uniform(longer[j]) && PlannedBatch(longer, randomIds, approved, perMessage, j, (sent + [batch])[j]) {
      if j < |runs| {
        PlannedStays(runs, open, randomIds, approved, perMessage, j, sent[j]);
      }
    }
  }

  /** The stretches with the open one, if it holds anything. */
  function Closed(closed: seq<seq<Item>>, open: seq<Item>): seq<seq<Item>> {
    if open == [] then closed else closed + [open]
  }

  /** The stretches closed so far are sent as planned; the open one is piled up under its own peer and flag. */
  ghost predicate Follows(s: Pile, done: seq<Item>, closed: seq<seq<Item>>, open: seq<Item>,
                          randomIds: seq<int>, approved: nat, perMessage: nat) {
    && Split(done, Closed(closed, open))
    && Count(closed, |closed|) + |open| == |done| <= |randomIds|
    && Planned(s.sent, closed, randomIds, approved, perMessage)
    && s.starsApproved == Left(closed, approved, perMessage, |closed|) && s.requestsLeft == |closed|
    && s.ids == SentIds(open) && s.randomIds == randomIds[Count(closed, |closed|)..|done|]
    && forall i :: 0 <= i < |open| ==> open[i].peer == s.forwardFrom && open[i].ephemeral == s.fromEphemeral
  }

  lemma SentIdsSize(items: seq<Item>)
    ensures |SentIds(items)| == |items|
  {
  }

  lemma FlushFollows(s: Pile, done: seq<Item>, closed: seq<seq<Item>>, open: seq<Item>,
                     randomIds: seq<int>, approved: nat, perMessage: nat)
    requires Follows(s, done, closed, open, randomIds, approved, perMessage)
    ensures Follows(Flush(s, perMessage), done, Closed(closed, open), [], randomIds, approved, perMessage)
  {
    hide Planned, SentIds, Min, Left, Count, Split;
    SentIdsSize(open);
    SentNone();
    if open != [] {
      assert Uniform(open) by { LastIsUniform(done, closed, open); }
      var paid := Min(s.starsApproved, |open| * perMessage);
      CountMore(closed, open);
      LeftMore(closed, open, approved, perMessage);
      PlannedMore(s.sent, closed, open, randomIds, approved, perMessage,
                  Batch(s.forwardFrom, s.fromEphemeral, s.ids, s.randomIds, paid));
    }
  }

  lemma LastIsUniform(list: seq<Item>, closed: seq<seq<Item>>, open: seq<Item>)
    requires Split(list, closed + [open])
    ensures Uniform(open)
  {
    assert Uniform((closed + [open])[|closed|]);
  }

  function Push(s: Pile, x: Item, randomId: int): Pile {
    s.(ids := s.ids + [SentId(x)], randomIds := s.randomIds + [randomId])
  }

  lemma PushFollows(s: Pile, done: seq<Item>, closed: seq<seq<Item>>, open: seq<Item>, x: Item,
                    randomIds: seq<int>, approved: nat, perMessage: nat)
    requires Follows(s, done, closed, open, randomIds, approved, perMessage) && |done| < |randomIds|
    requires x.peer == s.forwardFrom && x.ephemeral == s.fromEphemeral
    requires open == [] && closed != [] ==> !SameSource(closed[|closed| - 1][0], x)
    ensures Follows(Push(s, x, randomIds[|done|]), done + [x], closed, open + [x], randomIds, approved, perMessage)
  {
    hide Planned, SentIds, SentId, Min, Left, Count, Split, SameSource, Uniform;
    SentIdsPush(open, x);
    OpenSame(s, open, x);
    if open == [] {
      SplitStart(done, closed, x);
      assert [] + [x] == [x];
    } else {
      SplitMore(done, closed, open, x);
    }
    var start := Count(closed, |closed|);
    assert randomIds[start..|done| + 1] == randomIds[start..|done|] + [randomIds[|done|]];
  }

  lemma SentIdsPush(open: seq<Item>, x: Item)
    ensures SentIds(open + [x]) == SentIds(open) + [SentId(x)]
  {
  }

  lemma OpenSame(s: Pile, open: seq<Item>, x: Item)
    requires forall i :: 0 <= i < |open| ==> open[i].peer == s.forwardFrom && open[i].ephemeral == s.fromEphemeral
    requires x.peer == s.forwardFrom && x.ephemeral == s.fromEphemeral
    ensures open != [] ==> SameSource(open[0], x)
  {
  }

  /** One item of a range with flag `fromEphemeral`: what is open has that flag too, and if nothing is open the
      last closed stretch has the other flag. */
  lemma TakeFollows(s: Pile, done: seq<Item>, closed: seq<seq<Item>>, open: seq<Item>, x: Item,
                    randomIds: seq<int>, approved: nat, perMessage: nat)
    requires Follows(s, done, closed, open, randomIds, approved, perMessage) && |done| < |randomIds|
    requires x.ephemeral == s.fromEphemeral
    requires open == [] && closed != [] ==> !SameSource(closed[|closed| - 1][0], x)
    ensures var flushes := s.forwardFrom != x.peer;
      Follows(Take(s, x, randomIds[|done|], perMessage), done + [x],
              if flushes then Closed(closed, open) else closed, if flushes then [x] else open + [x],
              randomIds, approved, perMessage)
  {
    hide Planned, SentIds, Min, Left, Count, Split, Uniform;
    if s.forwardFrom != x.peer {
      FlushFollows(s, done, closed, open, randomIds, approved, perMessage);
      var t := Flush(s, perMessage).(forwardFrom := x.peer);
      assert Follows(t, done, Closed(closed, open), [], randomIds, approved, perMessage);
      assert open != [] ==> !SameSource(open[0], x);
      PushFollows(t, done, Closed(closed, open), [], x, randomIds, approved, perMessage);
      assert [] + [x] == [x];
    } else {
      PushFollows(s, done, closed, open, x, randomIds, approved, perMessage);
    }
  }

  lemma GroupedAll(list: seq<Item>, ranges: seq<Range>)
    requires Grouped(list, ranges)
    ensures Concat(ranges, |ranges|) == list
  {
  }

  lemma {:induction false} ConcatGrows(ranges: seq<Range>, j: nat, k: nat)
    requires j <= k <= |ranges|
    ensures |Concat(ranges, j)| <= |Concat(ranges, k)|
  {
    if j < k {
      ConcatGrows(ranges, j, k - 1);
    }
  }

  lemma GroupedAt(list: seq<Item>, ranges: seq<Range>, k: nat)
    requires Grouped(list, ranges) && k < |ranges|
    ensures RangeOk(ranges[k]) && |ranges[k].items| > 0
    ensures k > 0 ==> ranges[k].fromEphemeral != ranges[k - 1].fromEphemeral
    ensures Concat(ranges, k + 1) == Concat(ranges, k) + ranges[k].items
    ensures |Concat(ranges, k)| + |ranges[k].items| <= |list|
  {
    ConcatGrows(ranges, k + 1, |ranges|);
  }

  lemma StartFollows(s: Pile, randomIds: seq<int>, perMessage: nat)
    requires s.ids == [] && s.randomIds == [] && s.sent == [] && s.requestsLeft == 0
    ensures Follows(s, [], [], [], randomIds, s.starsApproved, perMessage)
  {
  }

  lemma FollowsToEnd(s: Pile, list: seq<Item>, runs: seq<seq<Item>>, randomIds: seq<int>, approved: nat, perMessage: nat)
    requires Follows(s, list, runs, [], randomIds, approved, perMessage)
    ensures Split(list, runs) && Planned(s.sent, runs, randomIds, approved, perMessage)
    ensures s.starsApproved == Left(runs, approved, perMessage, |runs|) && s.ids == [] && s.requestsLeft == |runs|
  {
    hide Split, Planned, Left, Count;
  }

  lemma FlagFollows(s: Pile, done: seq<Item>, closed: seq<seq<Item>>, randomIds: seq<int>, approved: nat,
                    perMessage: nat, flag: bool)
    requires Follows(s, done, closed, [], randomIds, approved, perMessage)
    ensures Follows(s.(fromEphemeral := flag), done, closed, [], randomIds, approved, perMessage)
  {
    hide Split, Planned, Left, Count;
  }

  class Forwarder {
    var ids: seq<int>
    var randomIds: seq<int>
    var forwardFrom: Peer
    var fromEphemeral: bool
    var starsApproved: nat
    var requestsLeft: nat
    ghost var sent: seq<Batch>
    const perMessage: nat

    ghost function Now(): Pile reads this {
      Pile(ids, randomIds, forwardFrom, fromEphemeral, starsApproved, requestsLeft, sent)
    }

    constructor (approved: nat, perMessage: nat)
      ensures Now() == Pile([], [], 0, false, approved, 0, []) && this.perMessage == perMessage
    {
      ids, randomIds, forwardFrom, fromEphemeral := [], [], 0, false;
      starsApproved, requestsLeft, sent := approved, 0, [];
      this.perMessage := perMessage;
    }

    method SendAccumulated()
      modifies this
      ensures Now() == Flush(old(Now()), perMessage)
    {
      if ids == [] { return; }
      requestsLeft := requestsLeft + 1;
      var starsPaid := if starsApproved < |ids| * perMessage then starsApproved else |ids| * perMessage;
      if starsPaid != 0 { starsApproved := starsApproved - starsPaid; }
      sent := sent + [Batch(forwardFrom, fromEphemeral, ids, randomIds, starsPaid)];
      ids, randomIds := [], [];
    }

    method TakeItem(item: Item, randomId: int)
      modifies this
      ensures Now() == Take(old(Now()), item, randomId, perMessage)
    {
      if forwardFrom != item.peer {
        SendAccumulated();
        forwardFrom := item.peer;
      }
      ids := ids + [if fromEphemeral then item.lookup else item.id];
      randomIds := randomIds + [randomId];
    }

    /** The outer and inner loop over what was collected; `random` are the ids drawn, one per item. */
    method ForwardMessages(ordered: seq<Item>, random: seq<int>) returns (ghost runs: seq<seq<Item>>)
      requires Now() == Pile([], [], forwardFrom, fromEphemeral, starsApproved, 0, [])
      requires |random| == |Sendable(ordered, |ordered|)|
      modifies this
      ensures Split(Sendable(ordered, |ordered|), runs)
      ensures Planned(sent, runs, random, old(starsApproved), perMessage)
      ensures starsApproved == Left(runs, old(starsApproved), perMessage, |runs|)
      ensures ids == [] && requestsLeft == |runs|
      ensures OwnIds(Sendable(ordered, |ordered|), AllIds(sent, |sent|)) && AllRandomIds(sent, |sent|) == random
    {
      hide Grouped, Follows, Flush, Take, OwnIds;
      var collected := CollectForwardRanges(ordered);
      ghost var approved := starsApproved;
      if collected == [] {
        runs := [];
        GroupedAll(Sendable(ordered, |ordered|), collected);
        StartFollows(Now(), random, perMessage);
        FollowsToEnd(Now(), [], runs, random, approved, perMessage);
        ItemsAreConserved([], runs, sent, random, approved, perMessage);
        return;
      }
      GroupedAt(Sendable(ordered, |ordered|), collected, 0);
      forwardFrom := collected[0].items[0].peer;
      fromEphemeral := false;
      runs := [];
      StartFollows(Now(), random, perMessage);
      ghost var list := Sendable(ordered, |ordered|);
      var drawn := 0;
      for k := 0 to |collected|
        invariant Follows(Now(), Concat(collected, k), runs, [], random, approved, perMessage)
        invariant drawn == |Concat(collected, k)|
        invariant runs != [] ==>
          k > 0 && |runs[|runs| - 1]| > 0 && runs[|runs| - 1][0].ephemeral == collected[k - 1].fromEphemeral
      {
        GroupedAt(list, collected, k);
        drawn, runs := ForwardRange(list, Concat(collected, k), collected[k], random, drawn, runs, approved);
      }
      GroupedAll(Sendable(ordered, |ordered|), collected);
      FollowsToEnd(Now(), Concat(collected, |collected|), runs, random, approved, perMessage);
      ItemsAreConserved(list, runs, sent, random, approved, perMessage);
    }

    /** One range, closed with a request of its own. */
    method ForwardRange(ghost list: seq<Item>, ghost before: seq<Item>, range: Range, random: seq<int>, drawn: nat,
                        ghost runs: seq<seq<Item>>, ghost approved: nat)
      returns (taken: nat, ghost longer: seq<seq<Item>>)
      requires Follows(Now(), before, runs, [], random, approved, perMessage) && RangeOk(range) && |range.items| > 0
      requires drawn == |before| && drawn + |range.items| <= |random|
      requires runs != [] ==> |runs[|runs| - 1]| > 0 && runs[|runs| - 1][0].ephemeral != range.fromEphemeral
      modifies this
      ensures Follows(Now(), before + range.items, longer, [], random, approved, perMessage)
      ensures taken == drawn + |range.items|
      ensures longer != [] && |longer[|longer| - 1]| > 0 && longer[|longer| - 1][0].ephemeral == range.fromEphemeral
    {
      hide Follows, Flush, Take;
      FlagFollows(Now(), before, runs, random, approved, perMessage, range.fromEphemeral);
      fromEphemeral := range.fromEphemeral;
      taken := drawn;
      ghost var closed, open: seq<Item> := runs, [];
      assert before + range.items[..0] == before;
      for i := 0 to |range.items|
        invariant Follows(Now(), before + range.items[..i], closed, open, random, approved, perMessage)
        invariant taken == drawn + i && fromEphemeral == range.fromEphemeral && (open == [] <==> i == 0)
        invariant open == [] ==> closed == runs
        invariant open != [] ==> open[0].ephemeral == range.fromEphemeral
      {
        ghost var done := before + range.items[..i];
        var item := range.items[i];
        TakeFollows(Now(), done, closed, open, item, random, approved, perMessage);
        TakeKeepsFlag(Now(), item, random[taken], perMessage);
        if forwardFrom != item.peer { closed, open := Closed(closed, open), [item]; } else { open := open + [item]; }
        TakeItem(item, random[taken]);
        taken := taken + 1;
        assert done + [item] == before + range.items[..i + 1];
      }
      assert range.items[..|range.items|] == range.items;
      FlushFollows(Now(), before + range.items, closed, open, random, approved, perMessage);
      longer := Closed(closed, open);
      SendAccumulated();
    }
  }

  lemma TakeKeepsFlag(s: Pile, item: Item, randomId: int, perMessage: nat)
    ensures Take(s, item, randomId, perMessage).fromEphemeral == s.fromEphemeral
  {
  }

  // ----- the callback shared by the batches

  /** `SharedCallback`, and how often its callback ran. */
  datatype Shared = Shared(requestsLeft: int, called: nat)

  /** Counts down as batches are done; a failed batch never does. */
  function Answer(s: Shared, done: bool): Shared {
    if !done then s
    else Shared(s.requestsLeft - 1, if s.requestsLeft - 1 == 0 then s.called + 1 else s.called)
  }

  function Answers(sent: nat, done: seq<bool>, k: nat): Shared
    requires k <= |done|
  {
    if k == 0 then Shared(sent, 0) else Answer(Answers(sent, done, k - 1), done[k - 1])
  }

  function Oks(done: seq<bool>, k: nat): nat
    requires k <= |done|
  {
    if k == 0 then 0 else Oks(done, k - 1) + if done[k - 1] then 1 else 0
  }

  lemma {:induction false} AnswersCount(sent: nat, done: seq<bool>, k: nat)
    requires k <= |done| <= sent
    ensures Answers(sent, done, k).requestsLeft == sent - Oks(done, k) && Oks(done, k) <= k
    ensures Answers(sent, done, k).called == if 0 < k && Oks(done, k) == sent then 1 else 0
  {
    if k > 0 {
      AnswersCount(sent, done, k - 1);
    }
  }

  lemma {:induction false} OksAll(done: seq<bool>, k: nat)
    requires k <= |done|
    ensures Oks(done, k) <= k && (Oks(done, k) == k <==> forall i :: 0 <= i < k ==> done[i])
  {
    if k > 0 {
      OksAll(done, k - 1);
    }
  }

  /** Whatever order the batches are answered in, the shared callback runs once when every one is done, and
      never while one is unanswered or after one failed. */
  lemma CallbackRunsOnce(sent: nat, done: seq<bool>)
    requires |done| <= sent && sent > 0
    ensures Answers(sent, done, |done|).called
         == if |done| == sent && (forall i :: 0 <= i < |done| ==> done[i]) then 1 else 0
  {
    AnswersCount(sent, done, |done|);
    OksAll(done, |done|);
  }
}
