/**
 * The web-page resolver of `apiwrap.cpp`. One map holds, for every pending page, 0 (not asked for yet), the
 * id of the request under way, or, only while requests are being put together, a negative temporary id.
 */
module WebPages {
  import opened MapOrder
  import opened Text

  type Page = nat
  /** None stands for every chat that is not a channel. */
  type Channel = Option<nat>
  type MsgId = int
  type RequestId = nat

  const INT_MAX := 0x7FFF_FFFF
  const DAY := 86400

  /** The message that shows a page. */
  datatype Item = Item(channel: Channel, id: MsgId)

  /** A message id in a request, with the page it was put there for. */
  datatype Entry = Entry(page: Page, id: MsgId)

  datatype Outgoing = Outgoing(channel: Channel, carried: seq<Entry>)

  /** What is told of a page: that there is none, or a description, which is settled when `till` is 0 and otherwise
      pending until then. */
  datatype Outcome = Empty | Described(till: int, hasUrl: bool)

  datatype Report = Report(page: Page, outcome: Outcome)

  /** `till`, `failed` and `linked` (there is an address) belong to the pages; `outstanding` (the requests under way)
      and `dropped` (those that ended with an error) are history. */
  datatype State = State(
    pending: map<Page, int>, till: map<Page, int>, failed: set<Page>, linked: set<Page>,
    nextId: RequestId, outstanding: map<RequestId, Outgoing>, dropped: map<RequestId, Outgoing>)

  const START: State := State(map[], map[], {}, {}, 1, map[], map[])

  function TillOf(till: map<Page, int>, p: Page): int {
    if p in till then till[p] else 0
  }

  // ----- what a resolve is for, without temporary ids

  /** The page is due, not asked for yet, and some message shows it. */
  predicate Wanted(s: State, items: map<Page, Item>, now: int, p: Page) {
    p in s.pending && s.pending[p] <= 0 && TillOf(s.till, p) <= now && p in items
  }

  predicate Later(s: State, now: int, p: Page) {
    p in s.pending && s.pending[p] <= 0 && TillOf(s.till, p) > now
  }

  /** What the request for chat `c` carries for the first `k` pages of the map. */
  function Entries(s: State, items: map<Page, Item>, now: int, order: seq<Page>, c: Channel, k: nat): seq<Entry>
    requires k <= |order|
  {
    if k == 0 then []
    else
      var p := order[k - 1];
      var before := Entries(s, items, now, order, c, k - 1);
      if Wanted(s, items, now, p) && items[p].channel == c then before + [Entry(p, items[p].id)] else before
  }

  /** `requests` names the new request of every chat that has something to ask. */
  ghost predicate Sent(s: State, t: State, items: map<Page, Item>, now: int, order: seq<Page>,
                       requests: map<Channel, RequestId>) {
    && (forall c :: c in requests <==> Entries(s, items, now, order, c, |order|) != [])
    && (forall c :: c in requests ==> s.nextId <= requests[c] < t.nextId)
    && (forall c, d :: c in requests && d in requests && requests[c] == requests[d] ==> c == d)
    && (forall c :: c in requests ==>
          && requests[c] in t.outstanding
          && t.outstanding[requests[c]] == Outgoing(c, Entries(s, items, now, order, c, |order|)))
    && (forall id: RequestId :: id < s.nextId ==> (id in t.outstanding <==> id in s.outstanding))
    && (forall id: RequestId :: id in s.outstanding ==> id in t.outstanding && t.outstanding[id] == s.outstanding[id])
    && (forall id: RequestId :: id in t.outstanding ==> id < t.nextId || id in s.outstanding)
    && s.nextId <= t.nextId
  }

  /** Every wanted page now holds the request of its own chat; every other page holds what it held. */
  ghost predicate TaggedBy(s: State, t: State, items: map<Page, Item>, now: int, requests: map<Channel, RequestId>) {
    && t.pending.Keys == s.pending.Keys
    && forall p :: p in s.pending ==>
         && (Wanted(s, items, now, p) ==> items[p].channel in requests && t.pending[p] == requests[items[p].channel])
         && (!Wanted(s, items, now, p) ==> t.pending[p] == s.pending[p])
  }

  ghost predicate Resolves(s: State, t: State, items: map<Page, Item>, now: int, order: seq<Page>,
                           requests: map<Channel, RequestId>) {
    && Sent(s, t, items, now, order, requests) && TaggedBy(s, t, items, now, requests)
    && t.till == s.till && t.failed == s.failed && t.linked == s.linked && t.dropped == s.dropped
  }

  /** The delay is the time to the next page that is not due yet, at most a day; none when there is no such page. */
  ghost predicate WakesFor(s: State, now: int, wake: Option<int>) {
    && (wake.None? <==> forall p :: !Later(s, now, p))
    && (wake.Some? ==>
          && 0 < wake.value <= DAY * 1000
          && (forall p :: Later(s, now, p) ==> wake.value <= (TillOf(s.till, p) - now) * 1000)
          && (wake.value == DAY * 1000 || exists p :: Later(s, now, p) && wake.value == (TillOf(s.till, p) - now) * 1000))
  }

  // ----- temporary ids

  /** A channel's slot number and what its request will carry. */
  datatype Slot = Slot(index: nat, carried: seq<Entry>)

  /** The slot numbers are a bijection between the channels and 0..n-1; `channels` is its inverse. */
  ghost predicate Slots(byChannel: map<nat, Slot>, channels: seq<nat>) {
    && |channels| == |byChannel|
    && (forall i :: 0 <= i < |channels| ==> channels[i] in byChannel && byChannel[channels[i]].index == i)
    && forall c :: c in byChannel ==> byChannel[c].index < |channels| && channels[byChannel[c].index] == c
  }

  /** What each chat has so far. */
  ghost predicate Gathered(s: State, items: map<Page, Item>, now: int, order: seq<Page>, k: nat,
                           common: seq<Entry>, byChannel: map<nat, Slot>)
    requires k <= |order|
  {
    && common == Entries(s, items, now, order, None, k)
    && (forall c :: c in byChannel <==> Entries(s, items, now, order, Some(c), k) != [])
    && forall c :: c in byChannel ==> byChannel[c].carried == Entries(s, items, now, order, Some(c), k)
  }

  /** The temporary id of a chat. */
  function Temporary(byChannel: map<nat, Slot>, c: Channel): int {
    if c.None? || c.value !in byChannel then -1 else -(byChannel[c.value].index as int) - 2
  }

  predicate Known(byChannel: map<nat, Slot>, c: Channel) {
    c.Some? ==> c.value in byChannel
  }

  /** What page `p` holds once it was walked over, or before that. */
  function Mark(s: State, items: map<Page, Item>, now: int, byChannel: map<nat, Slot>, walked: bool, p: Page): int
    requires p in s.pending
  {
    if walked && Wanted(s, items, now, p) then Temporary(byChannel, items[p].channel) else s.pending[p]
  }

  /** After the first `k` pages: each wanted one holds its chat's temporary id, all else is as before. */
  ghost predicate Marked(s: State, pending: map<Page, int>, items: map<Page, Item>, now: int, order: seq<Page>, k: nat,
                         byChannel: map<nat, Slot>)
    requires Covers(order, s.pending.Keys)
  {
    && pending.Keys == s.pending.Keys
    && (forall i :: 0 <= i < |order| ==> pending[order[i]] == Mark(s, items, now, byChannel, i < k, order[i]))
    && forall i :: 0 <= i < k && i < |order| && Wanted(s, items, now, order[i]) ==>
         Known(byChannel, items[order[i]].channel)
  }

  /** Puts a message into its channel's slot; a new channel gets the next index. */
  function WithEntry(byChannel: map<nat, Slot>, c: nat, e: Entry): map<nat, Slot> {
    if c in byChannel then byChannel[c := byChannel[c].(carried := byChannel[c].carried + [e])]
    else byChannel[c := Slot(|byChannel|, [e])]
  }

  function WithChannel(byChannel: map<nat, Slot>, channels: seq<nat>, c: nat): seq<nat> {
    if c in byChannel then channels else channels + [c]
  }

  lemma SlotsStep(byChannel: map<nat, Slot>, channels: seq<nat>, c: nat, e: Entry)
    requires Slots(byChannel, channels)
    ensures Slots(WithEntry(byChannel, c, e), WithChannel(byChannel, channels, c))
    ensures forall d: Channel :: Known(byChannel, d) ==>
      Known(WithEntry(byChannel, c, e), d) && Temporary(WithEntry(byChannel, c, e), d) == Temporary(byChannel, d)
  {
  }

  /** The slots after page `p`. */
  function Slotted(s: State, items: map<Page, Item>, now: int, byChannel: map<nat, Slot>, p: Page): map<nat, Slot> {
    if Wanted(s, items, now, p) && items[p].channel.Some?
    then WithEntry(byChannel, items[p].channel.value, Entry(p, items[p].id))
    else byChannel
  }

  function Walked(s: State, items: map<Page, Item>, now: int, byChannel: map<nat, Slot>, channels: seq<nat>,
                  p: Page): seq<nat> {
    if Wanted(s, items, now, p) && items[p].channel.Some? then WithChannel(byChannel, channels, items[p].channel.value)
    else channels
  }

  /** The common list after page `p`. */
  function Shared(s: State, items: map<Page, Item>, now: int, common: seq<Entry>, p: Page): seq<Entry> {
    if Wanted(s, items, now, p) && items[p].channel.None? then common + [Entry(p, items[p].id)] else common
  }

  lemma GatheredStep(s: State, items: map<Page, Item>, now: int, order: seq<Page>, k: nat,
                     common: seq<Entry>, byChannel: map<nat, Slot>)
    requires k < |order| && Gathered(s, items, now, order, k, common, byChannel)
    ensures var p := order[k];
      Gathered(s, items, now, order, k + 1,
        Shared(s, items, now, common, p), Slotted(s, items, now, byChannel, p))
  {
  }

  lemma SlotsWalk(s: State, items: map<Page, Item>, now: int, byChannel: map<nat, Slot>, channels: seq<nat>, p: Page)
    requires Slots(byChannel, channels)
    ensures Slots(Slotted(s, items, now, byChannel, p), Walked(s, items, now, byChannel, channels, p))
    ensures forall d: Channel :: Known(byChannel, d) ==>
      && Known(Slotted(s, items, now, byChannel, p), d)
      && Temporary(Slotted(s, items, now, byChannel, p), d) == Temporary(byChannel, d)
    ensures Wanted(s, items, now, p) ==> Known(Slotted(s, items, now, byChannel, p), items[p].channel)
  {
    hide Slots, Temporary;
    if Wanted(s, items, now, p) && items[p].channel.Some? {
      SlotsStep(byChannel, channels, items[p].channel.value, Entry(p, items[p].id));
    }
  }

  lemma MarkedStep(s: State, pending: map<Page, int>, items: map<Page, Item>, now: int, order: seq<Page>, k: nat,
                   byChannel: map<nat, Slot>, byChannelNow: map<nat, Slot>)
    requires Covers(order, s.pending.Keys) && k < |order| && Marked(s, pending, items, now, order, k, byChannel)
    requires forall d: Channel :: Known(byChannel, d) ==>
      Known(byChannelNow, d) && Temporary(byChannelNow, d) == Temporary(byChannel, d)
    requires Wanted(s, items, now, order[k]) ==> Known(byChannelNow, items[order[k]].channel)
    ensures Marked(s, pending[order[k] := Mark(s, items, now, byChannelNow, true, order[k])], items, now, order,
                   k + 1, byChannelNow)
  {
    var p := order[k];
    var after := pending[p := Mark(s, items, now, byChannelNow, true, p)];
    assert p in s.pending.Keys;
    hide Wanted, Known, Temporary;
    forall i | 0 <= i < |order| ensures after[order[i]] == Mark(s, items, now, byChannelNow, i < k + 1, order[i]) {
      assert order[i] in s.pending.Keys;
      if i < k { assert order[i] != order[k]; }
      if i > k { assert order[i] != order[k]; }
    }
  }

  lemma {:induction false} WantedHasEntry(s: State, items: map<Page, Item>, now: int, order: seq<Page>, k: nat, i: nat)
    requires i < k <= |order| && Wanted(s, items, now, order[i])
    ensures Entry(order[i], items[order[i]].id) in Entries(s, items, now, order, items[order[i]].channel, k)
  {
    if i < k - 1 {
      WantedHasEntry(s, items, now, order, k - 1, i);
    }
  }

  lemma {:induction false} EntryIsWanted(s: State, items: map<Page, Item>, now: int, order: seq<Page>, c: Channel,
                                         k: nat, e: Entry)
    requires k <= |order| && e in Entries(s, items, now, order, c, k)
    ensures e.page in order && Wanted(s, items, now, e.page) && items[e.page] == Item(c, e.id)
  {
    if e in Entries(s, items, now, order, c, k - 1) {
      EntryIsWanted(s, items, now, order, c, k - 1, e);
    }
  }

  // ----- requests

  /** New requests were sent for exactly `cargo`, each under an id of its own; nothing else changed. */
  ghost predicate Dispatched(nextId: RequestId, outstanding: map<RequestId, Outgoing>,
                             nextIdNow: RequestId, outstandingNow: map<RequestId, Outgoing>,
                             requests: map<Channel, RequestId>, cargo: map<Channel, seq<Entry>>) {
    && nextId <= nextIdNow
    && requests.Keys == cargo.Keys
    && (forall c :: c in requests ==> nextId <= requests[c] < nextIdNow)
    && (forall c, d :: c in requests && d in requests && requests[c] == requests[d] ==> c == d)
    && (forall c :: c in requests ==>
          requests[c] in outstandingNow && outstandingNow[requests[c]] == Outgoing(c, cargo[c]))
    && (forall id: RequestId :: id < nextId ==> (id in outstandingNow <==> id in outstanding))
    && (forall id: RequestId :: id in outstanding ==> id in outstandingNow && outstandingNow[id] == outstanding[id])
    && (forall id: RequestId :: id in outstandingNow ==> id < nextIdNow)
  }

  lemma DispatchedIds(nextId: RequestId, outstanding: map<RequestId, Outgoing>,
                      nextIdNow: RequestId, outstandingNow: map<RequestId, Outgoing>,
                      requests: map<Channel, RequestId>, cargo: map<Channel, seq<Entry>>)
    requires nextId > 0 && Dispatched(nextId, outstanding, nextIdNow, outstandingNow, requests, cargo)
    ensures requests.Keys == cargo.Keys && forall c :: c in requests ==> requests[c] > 0
  {
  }

  lemma DispatchOne(nextId: RequestId, outstanding: map<RequestId, Outgoing>,
                    nextIdNow: RequestId, outstandingNow: map<RequestId, Outgoing>,
                    requests: map<Channel, RequestId>, cargo: map<Channel, seq<Entry>>, c: Channel, carried: seq<Entry>)
    requires Dispatched(nextId, outstanding, nextIdNow, outstandingNow, requests, cargo) && c !in cargo
    requires forall id :: id in outstanding ==> id < nextId
    ensures Dispatched(nextId, outstanding, nextIdNow + 1, outstandingNow[nextIdNow := Outgoing(c, carried)],
                       requests[c := nextIdNow], cargo[c := carried])
  {
    assert nextIdNow !in outstandingNow;
  }

  /** `cargo` holds the common ids and the slots of the channels in `done`. */
  ghost predicate Packed(common: seq<Entry>, byChannel: map<nat, Slot>, done: set<nat>, cargo: map<Channel, seq<Entry>>) {
    && (None in cargo <==> common != [])
    && (None in cargo ==> cargo[None] == common)
    && forall c ::
         && (Some(c) in cargo <==> c in byChannel && c in done)
         && (Some(c) in cargo ==> cargo[Some(c)] == byChannel[c].carried)
  }

  lemma NotPackedYet(common: seq<Entry>, byChannel: map<nat, Slot>, done: set<nat>, cargo: map<Channel, seq<Entry>>,
                     c: nat)
    requires Packed(common, byChannel, done, cargo) && c !in done
    ensures Some(c) !in cargo
  {
  }

  lemma PackOne(common: seq<Entry>, byChannel: map<nat, Slot>, done: set<nat>, cargo: map<Channel, seq<Entry>>, c: nat)
    requires Packed(common, byChannel, done, cargo) && c in byChannel
    ensures Packed(common, byChannel, done + {c}, cargo[Some(c) := byChannel[c].carried])
  {
  }

  lemma SentWhatWasGathered(s: State, t: State, items: map<Page, Item>, now: int, order: seq<Page>,
                            common: seq<Entry>, byChannel: map<nat, Slot>,
                            requests: map<Channel, RequestId>, cargo: map<Channel, seq<Entry>>)
    requires Gathered(s, items, now, order, |order|, common, byChannel)
    requires Packed(common, byChannel, byChannel.Keys, cargo)
    requires Dispatched(s.nextId, s.outstanding, t.nextId, t.outstanding, requests, cargo)
    ensures Sent(s, t, items, now, order, requests)
  {
    hide Entries;
    forall c: Channel
      ensures c in cargo <==> Entries(s, items, now, order, c, |order|) != []
      ensures c in cargo ==> cargo[c] == Entries(s, items, now, order, c, |order|)
    {
      if c.Some? {
        assert c == Some(c.value);
      }
    }
  }

  lemma SentSame(s: State, t: State, u: State, items: map<Page, Item>, now: int, order: seq<Page>,
                 requests: map<Channel, RequestId>)
    requires Sent(s, t, items, now, order, requests) && u.nextId == t.nextId && u.outstanding == t.outstanding
    ensures Sent(s, u, items, now, order, requests)
  {
    hide Entries;
  }

  /** A temporary id turned into the request it stands for. */
  function Decode(requestId: RequestId, reqsByIndex: seq<RequestId>, v: int): int
    requires v < -1 ==> -v - 2 < |reqsByIndex|
  {
    if v >= 0 then v else if v == -1 then requestId else reqsByIndex[-v - 2]
  }

  /** The common request and the table by slot number hold what `requests` says of the channels in `done`. */
  ghost predicate Indexed(byChannel: map<nat, Slot>, done: set<nat>, requestId: RequestId, reqsByIndex: seq<RequestId>,
                          requests: map<Channel, RequestId>) {
    && |reqsByIndex| == |byChannel|
    && requestId == (if None in requests then requests[None] else 0)
    && forall c :: c in byChannel && c in done ==>
         byChannel[c].index < |byChannel| && Some(c) in requests && reqsByIndex[byChannel[c].index] == requests[Some(c)]
  }

  lemma IndexOne(byChannel: map<nat, Slot>, channels: seq<nat>, done: set<nat>, requestId: RequestId,
                 reqsByIndex: seq<RequestId>,
                 requests: map<Channel, RequestId>, c: nat, id: RequestId)
    requires Slots(byChannel, channels) && Indexed(byChannel, done, requestId, reqsByIndex, requests) && c in byChannel
    ensures byChannel[c].index < |reqsByIndex|
    ensures Indexed(byChannel, done + {c}, requestId, reqsByIndex[byChannel[c].index := id], requests[Some(c) := id])
  {
    assert forall d :: d in byChannel && d != c ==> byChannel[d].index != byChannel[c].index;
  }

  /** All that holds of the sending loop while the channels in `todo` are left. */
  ghost predicate Sending(s: State, t: State, common: seq<Entry>, byChannel: map<nat, Slot>, channels: seq<nat>,
                          todo: set<nat>,
                          requestId: RequestId, reqsByIndex: seq<RequestId>,
                          requests: map<Channel, RequestId>, cargo: map<Channel, seq<Entry>>) {
    && Slots(byChannel, channels) && todo <= byChannel.Keys
    && Dispatched(s.nextId, s.outstanding, t.nextId, t.outstanding, requests, cargo)
    && Packed(common, byChannel, byChannel.Keys - todo, cargo)
    && Indexed(byChannel, byChannel.Keys - todo, requestId, reqsByIndex, requests)
  }

  function WithRequest(t: State, c: Channel, carried: seq<Entry>): State {
    t.(nextId := t.nextId + 1, outstanding := t.outstanding[t.nextId := Outgoing(c, carried)])
  }

  ghost predicate IdsBelow(s: State) {
    s.nextId > 0 && forall id :: id in s.outstanding ==> id < s.nextId
  }

  lemma SendNothing(s: State, byChannel: map<nat, Slot>, channels: seq<nat>, reqsByIndex: seq<RequestId>)
    requires IdsBelow(s) && Slots(byChannel, channels) && |reqsByIndex| == |byChannel|
    ensures Sending(s, s, [], byChannel, channels, byChannel.Keys, 0, reqsByIndex, map[], map[])
  {
    hide Slots;
    assert byChannel.Keys - byChannel.Keys == {};
  }

  lemma DispatchedOne(s: State, c: Channel, carried: seq<Entry>)
    requires IdsBelow(s)
    ensures Dispatched(s.nextId, s.outstanding, s.nextId + 1, WithRequest(s, c, carried).outstanding,
                       map[c := s.nextId], map[c := carried])
  {
  }

  lemma SendCommon(s: State, common: seq<Entry>, byChannel: map<nat, Slot>, channels: seq<nat>,
                   reqsByIndex: seq<RequestId>)
    requires IdsBelow(s) && Slots(byChannel, channels) && |reqsByIndex| == |byChannel| && common != []
    ensures Sending(s, WithRequest(s, None, common), common, byChannel, channels, byChannel.Keys, s.nextId, reqsByIndex,
                    map[None := s.nextId], map[None := common])
  {
    hide Slots, Dispatched, IdsBelow;
    assert byChannel.Keys - byChannel.Keys == {};
    DispatchedOne(s, None, common);
  }

  lemma SendChannel(s: State, t: State, common: seq<Entry>, byChannel: map<nat, Slot>, channels: seq<nat>, todo: set<nat>,
                    requestId: RequestId, reqsByIndex: seq<RequestId>,
                    requests: map<Channel, RequestId>, cargo: map<Channel, seq<Entry>>, c: nat)
    requires IdsBelow(s) && c in todo
    requires Sending(s, t, common, byChannel, channels, todo, requestId, reqsByIndex, requests, cargo)
    ensures c in byChannel && byChannel[c].index < |reqsByIndex|
    ensures var slot := byChannel[c];
      Sending(s, WithRequest(t, Some(c), slot.carried), common, byChannel, channels, todo - {c}, requestId,
              reqsByIndex[slot.index := t.nextId], requests[Some(c) := t.nextId], cargo[Some(c) := slot.carried])
  {
    hide Dispatched, Slots, Packed, Indexed;
    var done := byChannel.Keys - todo;
    NotPackedYet(common, byChannel, done, cargo, c);
    DispatchOne(s.nextId, s.outstanding, t.nextId, t.outstanding, requests, cargo, Some(c), byChannel[c].carried);
    PackOne(common, byChannel, done, cargo, c);
    IndexOne(byChannel, channels, done, requestId, reqsByIndex, requests, c, t.nextId);
    assert byChannel.Keys - (todo - {c}) == done + {c};
  }

  lemma SendDone(s: State, t: State, common: seq<Entry>, byChannel: map<nat, Slot>, channels: seq<nat>,
                 requestId: RequestId, reqsByIndex: seq<RequestId>,
                 requests: map<Channel, RequestId>, cargo: map<Channel, seq<Entry>>)
    requires Sending(s, t, common, byChannel, channels, {}, requestId, reqsByIndex, requests, cargo)
    ensures Dispatched(s.nextId, s.outstanding, t.nextId, t.outstanding, requests, cargo)
    ensures Packed(common, byChannel, byChannel.Keys, cargo)
    ensures Indexed(byChannel, byChannel.Keys, requestId, reqsByIndex, requests)
  {
    hide Dispatched, Packed, Indexed;
    assert byChannel.Keys - {} == byChannel.Keys;
  }

  lemma DecodesItsOwn(byChannel: map<nat, Slot>, requestId: RequestId, reqsByIndex: seq<RequestId>,
                      requests: map<Channel, RequestId>, c: Channel)
    requires Indexed(byChannel, byChannel.Keys, requestId, reqsByIndex, requests) && Known(byChannel, c) && c in requests
    ensures var v := Temporary(byChannel, c);
      v < 0 && (v < -1 ==> -v - 2 < |reqsByIndex|) && Decode(requestId, reqsByIndex, v) == requests[c]
  {
  }

  // ----- lemmas for the loops

  /** The shortest wait among the first `k` pages that are not due yet. */
  ghost predicate Shortest(s: State, now: int, order: seq<Page>, k: nat, wait: int)
    requires k <= |order|
  {
    && (forall i :: 0 <= i < k && Later(s, now, order[i]) ==> wait <= TillOf(s.till, order[i]) - now)
    && (wait == INT_MAX || exists i :: 0 <= i < k && Later(s, now, order[i]) && wait == TillOf(s.till, order[i]) - now)
  }

  function Nearer(s: State, now: int, wait: int, p: Page): int {
    if Later(s, now, p) && TillOf(s.till, p) - now < wait then TillOf(s.till, p) - now else wait
  }

  lemma ShortestStep(s: State, now: int, order: seq<Page>, k: nat, wait: int)
    requires k < |order| && Shortest(s, now, order, k, wait)
    ensures Shortest(s, now, order, k + 1, Nearer(s, now, wait, order[k]))
  {
    hide Later, TillOf;
    var d := TillOf(s.till, order[k]) - now;
    if !(Later(s, now, order[k]) && d < wait) && wait != INT_MAX {
      var i :| 0 <= i < k && Later(s, now, order[i]) && wait == TillOf(s.till, order[i]) - now;
      assert 0 <= i < k + 1 && Later(s, now, order[i]);
    }
  }

  function Wake(wait: int): Option<int> {
    if wait < INT_MAX then Some((if wait < DAY then wait else DAY) * 1000) else None
  }

  lemma ShortestWakes(s: State, now: int, order: seq<Page>, wait: int)
    requires Covers(order, s.pending.Keys) && Shortest(s, now, order, |order|, wait)
    requires 0 < now && forall p :: p in s.till ==> s.till[p] <= INT_MAX
    ensures WakesFor(s, now, Wake(wait))
  {
    forall p | Later(s, now, p) ensures wait <= TillOf(s.till, p) - now && wait < INT_MAX {
      assert p in s.pending.Keys;
      var i :| 0 <= i < |order| && order[i] == p;
      assert Later(s, now, order[i]);
    }
    if wait < INT_MAX {
      var i :| 0 <= i < |order| && Later(s, now, order[i]) && wait == TillOf(s.till, order[i]) - now;
      assert Later(s, now, order[i]);
    }
  }

  /** All that holds of the first loop after `k` pages. */
  ghost predicate Marking(s: State, pending: map<Page, int>, items: map<Page, Item>, now: int, order: seq<Page>, k: nat,
                          common: seq<Entry>, byChannel: map<nat, Slot>, channels: seq<nat>, wait: int)
  {
    && k <= |order| && Covers(order, s.pending.Keys)
    && Marked(s, pending, items, now, order, k, byChannel)
    && Gathered(s, items, now, order, k, common, byChannel)
    && Slots(byChannel, channels) && Shortest(s, now, order, k, wait)
  }

  lemma MarkNone(s: State, items: map<Page, Item>, now: int, order: seq<Page>)
    requires Covers(order, s.pending.Keys)
    ensures Marking(s, s.pending, items, now, order, 0, [], map[], [], INT_MAX)
  {
    forall i | 0 <= i < |order| ensures order[i] in s.pending {
      assert order[i] in s.pending.Keys;
    }
  }

  lemma MarkNext(s: State, pending: map<Page, int>, items: map<Page, Item>, now: int, order: seq<Page>, k: nat,
                 common: seq<Entry>, byChannel: map<nat, Slot>, channels: seq<nat>, wait: int)
    requires k < |order| && Marking(s, pending, items, now, order, k, common, byChannel, channels, wait)
    ensures var p := order[k];
      && p in s.pending && p in pending && pending[p] == s.pending[p]
      && var slots := Slotted(s, items, now, byChannel, p);
         Marking(s, pending[p := Mark(s, items, now, slots, true, p)], items, now, order, k + 1,
           Shared(s, items, now, common, p), slots, Walked(s, items, now, byChannel, channels, p),
           Nearer(s, now, wait, p))
  {
    hide Covers, Marked, Gathered, Slots, Shortest, Slotted, Shared, Walked, Nearer, Mark;
    MarkedHolds(s, pending, items, now, order, k, byChannel);
    GatheredStep(s, items, now, order, k, common, byChannel);
    ShortestStep(s, now, order, k, wait);
    SlotsWalk(s, items, now, byChannel, channels, order[k]);
    MarkedStep(s, pending, items, now, order, k, byChannel, Slotted(s, items, now, byChannel, order[k]));
  }

  lemma MarkedHolds(s: State, pending: map<Page, int>, items: map<Page, Item>, now: int, order: seq<Page>, k: nat,
                    byChannel: map<nat, Slot>)
    requires Covers(order, s.pending.Keys) && k < |order| && Marked(s, pending, items, now, order, k, byChannel)
    ensures order[k] in s.pending && order[k] in pending && pending[order[k]] == s.pending[order[k]]
  {
    assert order[k] in s.pending.Keys;
  }

  lemma MarkingSays(s: State, pending: map<Page, int>, items: map<Page, Item>, now: int, order: seq<Page>,
                    common: seq<Entry>, byChannel: map<nat, Slot>, channels: seq<nat>, wait: int)
    requires Marking(s, pending, items, now, order, |order|, common, byChannel, channels, wait)
    ensures Covers(order, s.pending.Keys) && Marked(s, pending, items, now, order, |order|, byChannel)
    ensures Gathered(s, items, now, order, |order|, common, byChannel)
    ensures Slots(byChannel, channels) && Shortest(s, now, order, |order|, wait)
  {
  }

  lemma WantedIsAsked(s: State, pending: map<Page, int>, items: map<Page, Item>, now: int, order: seq<Page>,
                      common: seq<Entry>, byChannel: map<nat, Slot>,
                      requests: map<Channel, RequestId>, cargo: map<Channel, seq<Entry>>)
    requires Covers(order, s.pending.Keys) && Marked(s, pending, items, now, order, |order|, byChannel)
    requires Gathered(s, items, now, order, |order|, common, byChannel)
    requires Packed(common, byChannel, byChannel.Keys, cargo)
    requires requests.Keys == cargo.Keys
    ensures forall p :: Wanted(s, items, now, p) ==> items[p].channel in requests && Known(byChannel, items[p].channel)
  {
    forall p | Wanted(s, items, now, p) ensures items[p].channel in requests && Known(byChannel, items[p].channel) {
      assert p in s.pending.Keys;
      var i :| 0 <= i < |order| && order[i] == p;
      assert Wanted(s, items, now, order[i]);
      WantedHasEntry(s, items, now, order, |order|, i);
      var c := items[p].channel;
      assert c in cargo.Keys by {
        if c.Some? { assert c == Some(c.value); }
      }
    }
  }

  /** What page `p` holds in the end. */
  function Final(s: State, items: map<Page, Item>, now: int, requests: map<Channel, RequestId>, p: Page): int
    requires p in s.pending && (Wanted(s, items, now, p) ==> items[p].channel in requests)
  {
    if Wanted(s, items, now, p) then requests[items[p].channel] else s.pending[p]
  }

  lemma MarkDecodes(s: State, items: map<Page, Item>, now: int, order: seq<Page>, k: nat,
                    byChannel: map<nat, Slot>, requestId: RequestId, reqsByIndex: seq<RequestId>,
                    requests: map<Channel, RequestId>)
    requires k < |order| && order[k] in s.pending && s.pending[order[k]] >= 0
    requires Indexed(byChannel, byChannel.Keys, requestId, reqsByIndex, requests)
    requires Wanted(s, items, now, order[k]) ==>
      items[order[k]].channel in requests && Known(byChannel, items[order[k]].channel)
    ensures var v := Mark(s, items, now, byChannel, true, order[k]);
      && (v < -1 ==> -v - 2 < |reqsByIndex|)
      && Final(s, items, now, requests, order[k]) == Decode(requestId, reqsByIndex, v)
  {
    hide Indexed, Known, Temporary, Decode;
    if Wanted(s, items, now, order[k]) {
      DecodesItsOwn(byChannel, requestId, reqsByIndex, requests, items[order[k]].channel);
    } else {
      DecodePlain(requestId, reqsByIndex, s.pending[order[k]]);
    }
  }

  lemma DecodePlain(requestId: RequestId, reqsByIndex: seq<RequestId>, v: nat)
    ensures Decode(requestId, reqsByIndex, v) == v
  {
  }

  /** All that holds of the last loop after `k` pages. */
  ghost predicate Decoding(s: State, pending: map<Page, int>, items: map<Page, Item>, now: int, order: seq<Page>, k: nat,
                           byChannel: map<nat, Slot>, requestId: RequestId, reqsByIndex: seq<RequestId>,
                           requests: map<Channel, RequestId>) {
    && k <= |order| && Covers(order, s.pending.Keys) && pending.Keys == s.pending.Keys
    && Indexed(byChannel, byChannel.Keys, requestId, reqsByIndex, requests)
    && (forall p :: Wanted(s, items, now, p) ==> items[p].channel in requests && Known(byChannel, items[p].channel))
    && (forall p :: p in s.pending ==> s.pending[p] >= 0)
    && (forall i :: k <= i < |order| ==>
          order[i] in s.pending && pending[order[i]] == Mark(s, items, now, byChannel, true, order[i]))
    && (forall i :: 0 <= i < k ==> order[i] in s.pending && pending[order[i]] == Final(s, items, now, requests, order[i]))
  }

  lemma DecodeNext(s: State, pending: map<Page, int>, items: map<Page, Item>, now: int, order: seq<Page>, k: nat,
                   byChannel: map<nat, Slot>, requestId: RequestId, reqsByIndex: seq<RequestId>,
                   requests: map<Channel, RequestId>)
    requires k < |order| && Decoding(s, pending, items, now, order, k, byChannel, requestId, reqsByIndex, requests)
    ensures order[k] in pending && (pending[order[k]] < -1 ==> -pending[order[k]] - 2 < |reqsByIndex|)
    ensures Decoding(s, pending[order[k] := Decode(requestId, reqsByIndex, pending[order[k]])], items, now, order, k + 1,
                     byChannel, requestId, reqsByIndex, requests)
  {
    hide Indexed, Known, Mark, Final, Decode, Wanted;
    MarkDecodes(s, items, now, order, k, byChannel, requestId, reqsByIndex, requests);
  }

  lemma Decoded(s: State, t: State, items: map<Page, Item>, now: int, order: seq<Page>,
                byChannel: map<nat, Slot>, requestId: RequestId, reqsByIndex: seq<RequestId>,
                requests: map<Channel, RequestId>)
    requires Decoding(s, t.pending, items, now, order, |order|, byChannel, requestId, reqsByIndex, requests)
    ensures TaggedBy(s, t, items, now, requests)
  {
    hide Indexed, Wanted, Known;
    forall p | p in s.pending ensures t.pending[p] == Final(s, items, now, requests, p) {
      assert p in s.pending.Keys;
      var i :| 0 <= i < |order| && order[i] == p;
    }
  }

  lemma WantedSendsOne(byChannel: map<nat, Slot>, requestId: RequestId, reqsByIndex: seq<RequestId>,
                       requests: map<Channel, RequestId>, c: Channel)
    requires Indexed(byChannel, byChannel.Keys, requestId, reqsByIndex, requests) && Known(byChannel, c) && c in requests
    requires forall d :: d in requests ==> requests[d] > 0
    ensures requestId != 0 || |reqsByIndex| > 0
  {
  }

  lemma NothingToDecode(s: State, t: State, items: map<Page, Item>, now: int, order: seq<Page>,
                        byChannel: map<nat, Slot>, requestId: RequestId, reqsByIndex: seq<RequestId>,
                        requests: map<Channel, RequestId>)
    requires Covers(order, s.pending.Keys) && Marked(s, t.pending, items, now, order, |order|, byChannel)
    requires Indexed(byChannel, byChannel.Keys, requestId, reqsByIndex, requests) && requestId == 0 && |reqsByIndex| == 0
    requires forall p :: Wanted(s, items, now, p) ==> items[p].channel in requests
    requires forall c :: c in requests ==> requests[c] > 0
    ensures TaggedBy(s, t, items, now, requests)
  {
    forall p | p in s.pending ensures p in t.pending && t.pending[p] == s.pending[p] && !Wanted(s, items, now, p) {
      assert p in s.pending.Keys;
      var i :| 0 <= i < |order| && order[i] == p;
      hide Indexed, Known, Wanted;
      if Wanted(s, items, now, order[i]) {
        WantedSendsOne(byChannel, requestId, reqsByIndex, requests, items[p].channel);
      }
    }
  }

  lemma DecodingStarts(s: State, pending: map<Page, int>, items: map<Page, Item>, now: int, order: seq<Page>,
                       byChannel: map<nat, Slot>, requestId: RequestId, reqsByIndex: seq<RequestId>,
                       requests: map<Channel, RequestId>)
    requires Covers(order, s.pending.Keys) && Marked(s, pending, items, now, order, |order|, byChannel)
    requires Indexed(byChannel, byChannel.Keys, requestId, reqsByIndex, requests)
    requires forall p :: Wanted(s, items, now, p) ==> items[p].channel in requests && Known(byChannel, items[p].channel)
    requires forall p :: p in s.pending ==> s.pending[p] >= 0
    ensures Decoding(s, pending, items, now, order, 0, byChannel, requestId, reqsByIndex, requests)
  {
    hide Indexed, Wanted, Known, Mark, Final;
    forall i | 0 <= i < |order| ensures order[i] in s.pending {
      assert order[i] in s.pending.Keys;
    }
  }

  lemma ReadyToDecode(s: State, t: State, items: map<Page, Item>, now: int, order: seq<Page>,
                      common: seq<Entry>, byChannel: map<nat, Slot>, channels: seq<nat>, wait: int,
                      requestId: RequestId, reqsByIndex: seq<RequestId>,
                      requests: map<Channel, RequestId>, cargo: map<Channel, seq<Entry>>)
    requires s.nextId > 0 && forall p :: p in s.pending ==> s.pending[p] >= 0
    requires Marking(s, t.pending, items, now, order, |order|, common, byChannel, channels, wait)
    requires Dispatched(s.nextId, s.outstanding, t.nextId, t.outstanding, requests, cargo)
    requires Packed(common, byChannel, byChannel.Keys, cargo)
    requires Indexed(byChannel, byChannel.Keys, requestId, reqsByIndex, requests)
    ensures Sent(s, t, items, now, order, requests)
    ensures Decoding(s, t.pending, items, now, order, 0, byChannel, requestId, reqsByIndex, requests)
    ensures requestId == 0 && |reqsByIndex| == 0 ==> TaggedBy(s, t, items, now, requests)
  {
    MarkingSays(s, t.pending, items, now, order, common, byChannel, channels, wait);
    DispatchedIds(s.nextId, s.outstanding, t.nextId, t.outstanding, requests, cargo);
    hide Marking, Dispatched, Packed, Indexed, Gathered, TaggedBy, Sent, Wanted, Known, Marked, Covers, Slots,
      Shortest, Decoding;
    SentWhatWasGathered(s, t, items, now, order, common, byChannel, requests, cargo);
    WantedIsAsked(s, t.pending, items, now, order, common, byChannel, requests, cargo);
    DecodingStarts(s, t.pending, items, now, order, byChannel, requestId, reqsByIndex, requests);
    if requestId == 0 && |reqsByIndex| == 0 {
      NothingToDecode(s, t, items, now, order, byChannel, requestId, reqsByIndex, requests);
    }
  }

  // ----- the invariant

  ghost predicate Brings(out: Outgoing, p: Page) {
    exists i :: 0 <= i < |out.carried| && out.carried[i].page == p
  }

  /** The request was sent for page `p` and is still under way. */
  ghost predicate Fetched(s: State, id: RequestId, p: Page) {
    id in s.outstanding && Brings(s.outstanding[id], p)
  }

  /** The request was sent for page `p` and ended with an error. */
  ghost predicate Abandoned(s: State, id: RequestId, p: Page) {
    id in s.dropped && Brings(s.dropped[id], p)
  }

  /** No temporary id survives, and the id that a page holds is that of a request sent for it, under way or failed. */
  ghost predicate Inv(s: State) {
    && s.nextId > 0
    && (forall id :: id in s.outstanding ==> 0 < id < s.nextId && id !in s.dropped)
    && (forall id :: id in s.dropped ==> 0 < id < s.nextId)
    && forall p :: p in s.pending ==>
         s.pending[p] >= 0 && (s.pending[p] > 0 ==> Fetched(s, s.pending[p], p) || Abandoned(s, s.pending[p], p))
  }

  /** An error answer: these requests have no fail handler, so nothing but the request itself is gone. */
  function Fail(s: State, id: RequestId): State
    requires id in s.outstanding
  {
    s.(outstanding := s.outstanding - {id}, dropped := s.dropped[id := s.outstanding[id]])
  }

  /** `requestWebPageDelayed`; the delayed call itself is not part of the state. */
  function Requested(s: State, page: Page): State {
    if page in s.failed || TillOf(s.till, page) == 0 || page in s.pending then s
    else s.(pending := s.pending[page := 0])
  }

  /** The pages that hold `id`. */
  function Holding(s: State, id: RequestId): set<Page> {
    set p | p in s.pending && s.pending[p] == id
  }

  /** The pages in `gone` that still wait. */
  function Late(s: State, gone: set<Page>): set<Page> {
    set p | p in gone && TillOf(s.till, p) > 0
  }

  /** Erases the pages in `gone`; those still pending have failed. */
  function Erase(s: State, gone: set<Page>): State {
    var late := Late(s, gone);
    s.(pending := s.pending - gone, failed := s.failed + late, till := s.till + (map p | p in late :: 0))
  }

  /** A page that has an address or has failed does not take a new time when it is settled. */
  predicate Ignores(s: State, p: Page, till: int) {
    && till != 0 && (p in s.linked || p in s.failed)
    && (TillOf(s.till, p) == 0 || TillOf(s.till, p) == till || till < -1)
  }

  /** `applyChanges`: a page that waits no longer is not asked for any more. */
  function Applied(s: State, p: Page, till: int, hasUrl: bool): State {
    if Ignores(s, p, till) then s
    else
      s.(pending := if TillOf(s.till, p) > 0 && till <= 0 then s.pending - {p} else s.pending,
         till := s.till[p := till], linked := if hasUrl then s.linked + {p} else s.linked - {p})
  }

  /** `processWebpage` */
  function Told(s: State, p: Page, outcome: Outcome): State {
    match outcome
    case Empty => if TillOf(s.till, p) > 0 then s.(till := s.till[p := 0], failed := s.failed + {p}) else s
    case Described(till, hasUrl) =>
      var t := Applied(s, p, till, hasUrl);
      if TillOf(s.till, p) == 0 && till > 0 then Requested(t, p) else t
  }

  /** After the first `k` reports. */
  function ToldFirst(s: State, reports: seq<Report>, k: nat): State
    requires k <= |reports|
  {
    if k == 0 then s else Told(ToldFirst(s, reports, k - 1), reports[k - 1].page, reports[k - 1].outcome)
  }

  /** `gotWebPages`: what the answer says of pages first, then the pages that still hold its request. */
  function Got(s: State, id: RequestId, reports: seq<Report>): State {
    var t := ToldFirst(s, reports, |reports|);
    Erase(t.(outstanding := t.outstanding - {id}), Holding(t, id))
  }

  function EraseOne(t: State, p: Page): State {
    if TillOf(t.till, p) > 0 then t.(till := t.till[p := 0], failed := t.failed + {p}, pending := t.pending - {p})
    else t.(pending := t.pending - {p})
  }

  lemma EraseNext(s: State, gone: set<Page>, p: Page)
    requires p !in gone
    ensures EraseOne(Erase(s, gone), p) == Erase(s, gone + {p})
  {
    hide TillOf, Late;
    var t, u := EraseOne(Erase(s, gone), p), Erase(s, gone + {p});
    EraseTill(s, gone, p);
    LateNext(s, gone, p);
    assert t.failed == u.failed;
    assert t.till == u.till;
    assert t.pending == u.pending;
  }

  lemma LateNext(s: State, gone: set<Page>, p: Page)
    requires p !in gone
    ensures Late(s, gone + {p}) == if TillOf(s.till, p) > 0 then Late(s, gone) + {p} else Late(s, gone)
  {
    hide TillOf;
  }

  lemma EraseTill(s: State, gone: set<Page>, p: Page)
    requires p !in gone
    ensures TillOf(Erase(s, gone).till, p) == TillOf(s.till, p)
  {
  }

  /** The pages that hold `id` among the first `k`. */
  function HoldingFirst(s: State, id: RequestId, order: seq<Page>, k: nat): set<Page>
    requires k <= |order|
  {
    set i | 0 <= i < k && order[i] in s.pending && s.pending[order[i]] == id :: order[i]
  }

  lemma HoldingNext(s: State, id: RequestId, order: seq<Page>, k: nat)
    requires Covers(order, s.pending.Keys) && k < |order|
    ensures order[k] in s.pending && order[k] !in HoldingFirst(s, id, order, k)
    ensures HoldingFirst(s, id, order, k + 1)
         == HoldingFirst(s, id, order, k) + if s.pending[order[k]] == id then {order[k]} else {}
  {
    assert order[k] in s.pending.Keys;
  }

  lemma HoldingAll(s: State, id: RequestId, order: seq<Page>)
    requires Covers(order, s.pending.Keys)
    ensures HoldingFirst(s, id, order, |order|) == Holding(s, id)
  {
    forall p | p in Holding(s, id) ensures p in HoldingFirst(s, id, order, |order|) {
      assert p in s.pending.Keys;
      var i :| 0 <= i < |order| && order[i] == p;
    }
  }

  lemma EraseNothing(s: State, id: RequestId, order: seq<Page>)
    ensures Erase(s, HoldingFirst(s, id, order, 0)) == s
  {
    assert HoldingFirst(s, id, order, 0) == {};
    assert s.pending - {} == s.pending;
  }

  lemma EraseHolds(s: State, gone: set<Page>, p: Page)
    requires p in s.pending && p !in gone
    ensures p in Erase(s, gone).pending && Erase(s, gone).pending[p] == s.pending[p]
  {
  }

  class Resolver {
    var webPagesPending: map<Page, int>
    var till: map<Page, int>
    var failed: set<Page>
    var linked: set<Page>
    var nextId: RequestId
    ghost var outstanding: map<RequestId, Outgoing>
    ghost var dropped: map<RequestId, Outgoing>

    ghost function Now(): State reads this {
      State(webPagesPending, till, failed, linked, nextId, outstanding, dropped)
    }

    constructor ()
      ensures Now() == START
    {
      webPagesPending, till, failed, linked := map[], map[], {}, {};
      nextId, outstanding, dropped := 1, map[], map[];
    }

    method RequestWebPageDelayed(page: Page)
      modifies this
      ensures Now() == Requested(old(Now()), page)
    {
      if page in failed || TillOf(till, page) == 0 { return; }
      if page !in webPagesPending { webPagesPending := webPagesPending[page := 0]; }
    }

    method ClearWebPageRequest(page: Page)
      modifies this
      ensures Now() == old(Now()).(pending := old(webPagesPending) - {page})
    {
      webPagesPending := webPagesPending - {page};
    }

    /** The whole of `resolveWebPages`; `order` is the map's own order, `wake` the new timer delay. */
    method ResolveWebPages(items: map<Page, Item>, now: int, order: seq<Page>)
      returns (wake: Option<int>, ghost requests: map<Channel, RequestId>)
      requires Inv(Now()) && Covers(order, webPagesPending.Keys)
      requires 0 < now && forall p :: p in till ==> till[p] <= INT_MAX
      modifies this`webPagesPending, this`nextId, this`outstanding
      ensures Resolves(old(Now()), Now(), items, now, order, requests)
      ensures WakesFor(old(Now()), now, wake)
    {
      hide Covers, Marking, Sending, Dispatched, Packed, Indexed, Decoding, Sent, TaggedBy, WakesFor;
      ghost var s := Now();
      assert IdsBelow(s);
      var common, byChannel, wait;
      ghost var channels;
      common, byChannel, wait, channels := MarkPages(items, now, order);
      assert Slots(byChannel, channels) && Shortest(s, now, order, |order|, wait) by {
        MarkingSays(s, webPagesPending, items, now, order, common, byChannel, channels, wait);
      }
      hide Slots, Shortest;
      var requestId, reqsByIndex;
      ghost var cargo;
      requestId, reqsByIndex, requests, cargo := SendRequests(common, byChannel, channels);
      SendDone(s.(pending := webPagesPending), Now(), common, byChannel, channels, requestId, reqsByIndex[..],
               requests, cargo);
      ReadyToDecode(s, Now(), items, now, order, common, byChannel, channels, wait, requestId,
                    reqsByIndex[..], requests, cargo);
      ghost var sent := Now();
      if requestId != 0 || reqsByIndex.Length > 0 {
        DecodeTags(s, items, now, order, byChannel, requestId, reqsByIndex, requests);
      }
      SentSame(s, sent, Now(), items, now, order, requests);
      wake := None;
      if wait < INT_MAX {
        wake := Some((if wait < DAY then wait else DAY) * 1000);
      }
      ShortestWakes(s, now, order, wait);
    }

    /** The first loop: temporary ids. */
    method MarkPages(items: map<Page, Item>, now: int, order: seq<Page>)
      returns (common: seq<Entry>, byChannel: map<nat, Slot>, wait: int, ghost channels: seq<nat>)
      requires Covers(order, webPagesPending.Keys)
      modifies this`webPagesPending
      ensures Marking(old(Now()), webPagesPending, items, now, order, |order|, common, byChannel, channels, wait)
    {
      hide Covers, Marking, Mark, Slotted, Walked, Shared, Nearer, Wanted, Later, TillOf;
      ghost var s := Now();
      common, byChannel, wait, channels := [], map[], INT_MAX, [];
      MarkNone(s, items, now, order);
      for k := 0 to |order|
        invariant Now() == s.(pending := webPagesPending)
        invariant Marking(s, webPagesPending, items, now, order, k, common, byChannel, channels, wait)
      {
        MarkNext(s, webPagesPending, items, now, order, k, common, byChannel, channels, wait);
        channels := Walked(s, items, now, byChannel, channels, order[k]);
        common, byChannel, wait := MarkPage(s, items, now, order[k], common, byChannel, wait);
      }
    }

    /** One page of the first loop. */
    method MarkPage(ghost s: State, items: map<Page, Item>, now: int, page: Page,
                    common: seq<Entry>, byChannel: map<nat, Slot>, wait: int)
      returns (commonNow: seq<Entry>, byChannelNow: map<nat, Slot>, waitNow: int)
      requires Now() == s.(pending := webPagesPending)
      requires page in webPagesPending && page in s.pending && webPagesPending[page] == s.pending[page]
      modifies this`webPagesPending
      ensures byChannelNow == Slotted(s, items, now, byChannel, page)
      ensures webPagesPending == old(webPagesPending)[page := Mark(s, items, now, byChannelNow, true, page)]
      ensures commonNow == Shared(s, items, now, common, page) && waitNow == Nearer(s, now, wait, page)
    {
      commonNow, byChannelNow, waitNow := common, byChannel, wait;
      if webPagesPending[page] > 0 { return; }
      if TillOf(till, page) <= now {
        if page in items {
          var item := items[page];
          if item.channel.Some? {
            var c := item.channel.value;
            if c !in byChannel {
              byChannelNow := byChannel[c := Slot(|byChannel|, [Entry(page, item.id)])];
            } else {
              byChannelNow := byChannel[c := byChannel[c].(carried := byChannel[c].carried + [Entry(page, item.id)])];
            }
            webPagesPending := webPagesPending[page := -(byChannelNow[c].index as int) - 2];
          } else {
            commonNow := common + [Entry(page, item.id)];
            webPagesPending := webPagesPending[page := -1];
          }
        }
      } else {
        waitNow := if TillOf(till, page) - now < wait then TillOf(till, page) - now else wait;
      }
    }

    /** One request for the common ids, one for every channel in whatever order the map keeps them. */
    method SendRequests(common: seq<Entry>, byChannel: map<nat, Slot>, ghost channels: seq<nat>)
      returns (requestId: RequestId, reqsByIndex: array<RequestId>, ghost requests: map<Channel, RequestId>,
               ghost cargo: map<Channel, seq<Entry>>)
      requires IdsBelow(Now()) && Slots(byChannel, channels)
      modifies this`nextId, this`outstanding
      ensures fresh(reqsByIndex)
      ensures Sending(old(Now()), Now(), common, byChannel, channels, {}, requestId, reqsByIndex[..], requests, cargo)
    {
      hide Sending;
      ghost var s := Now();
      reqsByIndex := new RequestId[|byChannel|](_ => 0);
      requestId, requests, cargo := 0, map[], map[];
      if common == [] {
        SendNothing(s, byChannel, channels, reqsByIndex[..]);
      } else {
        SendCommon(s, common, byChannel, channels, reqsByIndex[..]);
        requestId := Send(None, common);
        requests, cargo := map[None := requestId], map[None := common];
      }
      var todo := byChannel.Keys;
      while todo != {}
        invariant todo <= byChannel.Keys && reqsByIndex.Length == |byChannel|
        invariant Sending(s, Now(), common, byChannel, channels, todo, requestId, reqsByIndex[..], requests, cargo)
        decreases todo
      {
        var c :| c in todo;
        ghost var table := reqsByIndex[..];
        SendChannel(s, Now(), common, byChannel, channels, todo, requestId, table, requests, cargo, c);
        var slot := byChannel[c];
        var id := Send(Some(c), slot.carried);
        reqsByIndex[slot.index] := id;
        assert reqsByIndex[..] == table[slot.index := id];
        requests, cargo := requests[Some(c) := id], cargo[Some(c) := slot.carried];
        todo := todo - {c};
      }
    }

    method Send(c: Channel, carried: seq<Entry>) returns (id: RequestId)
      modifies this`nextId, this`outstanding
      ensures Now() == WithRequest(old(Now()), c, carried) && id == old(nextId)
    {
      id := nextId;
      nextId, outstanding := nextId + 1, outstanding[nextId := Outgoing(c, carried)];
    }

    /** The last loop: temporary ids become request ids. */
    method DecodeTags(ghost s: State, ghost items: map<Page, Item>, ghost now: int, order: seq<Page>,
                      ghost byChannel: map<nat, Slot>, requestId: RequestId, reqsByIndex: array<RequestId>,
                      ghost requests: map<Channel, RequestId>)
      requires Decoding(s, webPagesPending, items, now, order, 0, byChannel, requestId, reqsByIndex[..], requests)
      modifies this`webPagesPending
      ensures TaggedBy(s, Now(), items, now, requests)
    {
      hide Decoding, TaggedBy;
      for k := 0 to |order|
        invariant Decoding(s, webPagesPending, items, now, order, k, byChannel, requestId, reqsByIndex[..], requests)
      {
        DecodeNext(s, webPagesPending, items, now, order, k, byChannel, requestId, reqsByIndex[..], requests);
        var page := order[k];
        var v := webPagesPending[page];
        if v < 0 {
          webPagesPending := webPagesPending[page := if v == -1 then requestId else reqsByIndex[-v - 2]];
        } else {
          assert webPagesPending == webPagesPending[page := v];
        }
      }
      Decoded(s, Now(), items, now, order, byChannel, requestId, reqsByIndex[..], requests);
    }

    /** Something is told of a page. */
    method ProcessWebpage(page: Page, outcome: Outcome)
      modifies this
      ensures Now() == Told(old(Now()), page, outcome)
    {
      match outcome
      case Empty =>
        if TillOf(till, page) > 0 {
          till := till[page := 0];
          failed := failed + {page};
        }
      case Described(newTill, hasUrl) =>
        var requestPending := TillOf(till, page) == 0 && newTill > 0;
        ApplyFields(page, newTill, hasUrl);
        if requestPending {
          RequestWebPageDelayed(page);
        }
    }

    method ApplyFields(page: Page, newTill: int, hasUrl: bool)
      modifies this
      ensures Now() == Applied(old(Now()), page, newTill, hasUrl)
    {
      var pendingTill := TillOf(till, page);
      if newTill != 0 && (page in linked || page in failed)
         && (pendingTill == 0 || pendingTill == newTill || newTill < -1) {
        return;
      }
      if pendingTill > 0 && newTill <= 0 {
        ClearWebPageRequest(page);
      }
      till := till[page := newTill];
      linked := if hasUrl then linked + {page} else linked - {page};
    }

    method ApplyChanges(reports: seq<Report>)
      modifies this
      ensures Now() == ToldFirst(old(Now()), reports, |reports|)
    {
      for k := 0 to |reports|
        invariant Now() == ToldFirst(old(Now()), reports, k)
      {
        ProcessWebpage(reports[k].page, reports[k].outcome);
      }
    }

    /** The answer to request `req`; the request is over once it was answered; `order` is that of the map after what
        the answer says of pages. */
    method GotWebPages(req: RequestId, reports: seq<Report>, order: seq<Page>)
      requires Covers(order, ToldFirst(Now(), reports, |reports|).pending.Keys)
      modifies this
      ensures Now() == Got(old(Now()), req, reports)
    {
      hide Covers, Erase, EraseOne, HoldingFirst, Holding, ToldFirst;
      ApplyChanges(reports);
      ghost var s := Now();
      outstanding := outstanding - {req};
      ghost var start := Now();
      EraseNothing(start, req, order);
      for k := 0 to |order|
        invariant Now() == Erase(start, HoldingFirst(start, req, order, k))
      {
        var page := order[k];
        HoldingNext(start, req, order, k);
        EraseHolds(start, HoldingFirst(start, req, order, k), page);
        EraseNext(start, HoldingFirst(start, req, order, k), page);
        if webPagesPending[page] == req {
          ErasePage(page);
        } else {
          assert HoldingFirst(start, req, order, k) + {} == HoldingFirst(start, req, order, k);
        }
      }
      HoldingAll(start, req, order);
      HoldingSame(s, start, req);
    }

    /** A request ends with an error: nothing here is told. */
    ghost method RequestFails(id: RequestId)
      requires id in outstanding
      modifies this`outstanding, this`dropped
      ensures Now() == Fail(old(Now()), id)
    {
      outstanding, dropped := outstanding - {id}, dropped[id := outstanding[id]];
    }

    method ErasePage(page: Page)
      modifies this
      ensures Now() == EraseOne(old(Now()), page)
    {
      if TillOf(till, page) > 0 {
        till := till[page := 0];
        failed := failed + {page};
      }
      webPagesPending := webPagesPending - {page};
    }
  }

  lemma HoldingSame(s: State, t: State, id: RequestId)
    requires t.pending == s.pending
    ensures Holding(t, id) == Holding(s, id)
  {
  }

  // ----- what resolving and answering do

  /** A page that a resolve tags holds a new request to its own chat, and that request carries its message. */
  lemma TaggedByItsOwn(s: State, t: State, items: map<Page, Item>, now: int, order: seq<Page>,
                       requests: map<Channel, RequestId>, p: Page)
    requires Inv(s) && Covers(order, s.pending.Keys) && Resolves(s, t, items, now, order, requests)
    requires Wanted(s, items, now, p)
    ensures p in t.pending && t.pending[p] > 0
    ensures var id: RequestId := t.pending[p];
      && id in t.outstanding && id !in s.outstanding
      && t.outstanding[id].channel == items[p].channel
      && Entry(p, items[p].id) in t.outstanding[id].carried
  {
    assert p in s.pending.Keys;
    var i :| 0 <= i < |order| && order[i] == p;
    WantedHasEntry(s, items, now, order, |order|, i);
  }

  /** In every run a page is asked for by a resolve exactly when it was not asked for yet, its time has come and some
      message shows it, and then by the new request of the chat of that message. */
  lemma DueIsAsked(states: seq<State>, events: seq<Event>, k: nat, p: Page)
    requires IsRun(states, events) && k < |events| && events[k].Resolved? && p in states[k].pending
    ensures var s, t, items := states[k], states[k + 1], events[k].items;
      && p in t.pending
      && if s.pending[p] == 0 && p in items && (p in s.till ==> s.till[p] <= events[k].now)
            && (p !in s.till ==> 0 <= events[k].now) then
           var id := t.pending[p];
           && id > 0 && id !in s.outstanding && id in t.outstanding
           && t.outstanding[id].channel == items[p].channel && Entry(p, items[p].id) in t.outstanding[id].carried
         else t.pending[p] == s.pending[p]
  {
    RunKeeps(states, events, k);
    assert Next(states[k], events[k], states[k + 1]);
    hide Covers, Sent, Entries, Brings, IsRun;
    var e := events[k];
    if Wanted(states[k], e.items, e.now, p) {
      TaggedByItsOwn(states[k], states[k + 1], e.items, e.now, e.order, e.requests, p);
    }
  }

  /** The delay a resolve leaves: none when no page waits for its time, otherwise that of the page that waits least,
      in milliseconds, but not more than a day. */
  lemma WakesInTime(s: State, now: int, wake: Option<int>)
    requires Inv(s) && WakesFor(s, now, wake)
    ensures forall p :: p in s.pending && s.pending[p] == 0 && p in s.till && s.till[p] > now && now >= 0 ==>
      wake.Some? && wake.value <= 86400000 && wake.value <= (s.till[p] - now) * 1000
    ensures wake.Some? && now >= 0 ==>
      wake.value == 86400000
      || exists p :: p in s.pending && s.pending[p] == 0 && p in s.till && wake.value == (s.till[p] - now) * 1000
    ensures wake.Some? ==> exists p :: p in s.pending && s.pending[p] == 0 && TillOf(s.till, p) > now
  {
    hide Fetched, Abandoned;
    assert forall p :: p in s.pending ==> (Later(s, now, p) <==> s.pending[p] == 0 && TillOf(s.till, p) > now);
  }

  /** A request carries only messages of its own chat, each for a page that was wanted and now holds its id. */
  lemma CarriesOnlyItsOwn(s: State, t: State, items: map<Page, Item>, now: int, order: seq<Page>,
                          requests: map<Channel, RequestId>, c: Channel, e: Entry)
    requires Inv(s) && Covers(order, s.pending.Keys) && Resolves(s, t, items, now, order, requests)
    requires c in requests && e in t.outstanding[requests[c]].carried
    ensures Wanted(s, items, now, e.page) && items[e.page] == Item(c, e.id)
    ensures e.page in t.pending && t.pending[e.page] == requests[c]
  {
    EntryIsWanted(s, items, now, order, c, |order|, e);
  }

  lemma TaggedIsFetched(s: State, t: State, items: map<Page, Item>, now: int, order: seq<Page>,
                        requests: map<Channel, RequestId>, p: Page)
    requires Inv(s) && Covers(order, s.pending.Keys) && Resolves(s, t, items, now, order, requests)
    requires Wanted(s, items, now, p)
    ensures p in t.pending && t.pending[p] > 0 && Fetched(t, t.pending[p], p)
  {
    hide Inv, Covers, Sent, TaggedBy;
    TaggedByItsOwn(s, t, items, now, order, requests, p);
    var out := t.outstanding[t.pending[p] as RequestId];
    var i :| 0 <= i < |out.carried| && out.carried[i] == Entry(p, items[p].id);
    assert out.carried[i].page == p;
  }

  lemma ResolveKeeps(s: State, t: State, items: map<Page, Item>, now: int, order: seq<Page>,
                     requests: map<Channel, RequestId>)
    requires Inv(s) && Covers(order, s.pending.Keys) && Resolves(s, t, items, now, order, requests)
    ensures Inv(t)
  {
    hide Wanted, Covers, Brings, Entries;
    forall p | p in t.pending
      ensures t.pending[p] >= 0
      ensures t.pending[p] > 0 ==> Fetched(t, t.pending[p], p) || Abandoned(t, t.pending[p], p)
    {
      if Wanted(s, items, now, p) {
        TaggedIsFetched(s, t, items, now, order, requests, p);
      }
    }
  }

  // ----- whole runs

  datatype Event =
    | PageTold(page: Page, outcome: Outcome)
    | PageAsked(page: Page)
    | PageCleared(page: Page)
    | AllCleared
    | Resolved(items: map<Page, Item>, now: int, order: seq<Page>, requests: map<Channel, RequestId>)
    | Answered(id: RequestId, reports: seq<Report>)
    | Failed(id: RequestId)

  ghost predicate Next(s: State, e: Event, t: State) {
    match e
    case PageTold(p, outcome) => t == Told(s, p, outcome)
    case PageAsked(p) => t == Requested(s, p)
    case PageCleared(p) => t == s.(pending := s.pending - {p})
    case AllCleared => t == s.(pending := map[])
    case Resolved(items, now, order, requests) =>
      Covers(order, s.pending.Keys) && Resolves(s, t, items, now, order, requests)
    case Answered(id, reports) => id in s.outstanding && t == Got(s, id, reports)
    case Failed(id) => id in s.outstanding && t == Fail(s, id)
  }

  ghost predicate IsRun(states: seq<State>, events: seq<Event>) {
    && |states| == |events| + 1 && states[0] == START
    && forall i :: 0 <= i < |events| ==> Next(states[i], events[i], states[i + 1])
  }

  /** What is told of pages takes them out of the map or puts them down to be asked for. */
  ghost predicate Tells(s: State, t: State) {
    && t == s.(pending := t.pending, till := t.till, failed := t.failed, linked := t.linked)
    && forall p :: p in t.pending ==> t.pending[p] == 0 || (p in s.pending && t.pending[p] == s.pending[p])
  }

  lemma ToldTells(s: State, p: Page, outcome: Outcome)
    ensures Tells(s, Told(s, p, outcome))
  {
  }

  lemma {:induction false} AllTell(s: State, reports: seq<Report>, k: nat)
    requires k <= |reports|
    ensures Tells(s, ToldFirst(s, reports, k))
  {
    hide Told;
    if k > 0 {
      AllTell(s, reports, k - 1);
      ToldTells(ToldFirst(s, reports, k - 1), reports[k - 1].page, reports[k - 1].outcome);
    }
  }

  lemma TellsKeeps(s: State, t: State)
    requires Inv(s) && Tells(s, t)
    ensures Inv(t)
  {
    hide Brings;
  }

  lemma EraseKeeps(s: State, id: RequestId)
    requires Inv(s)
    ensures Inv(Erase(s.(outstanding := s.outstanding - {id}), Holding(s, id)))
  {
    hide Brings;
  }

  lemma StepKeeps(s: State, e: Event, t: State)
    requires Inv(s) && Next(s, e, t)
    ensures Inv(t)
  {
    hide Resolves, Covers, Inv, Told, ToldFirst, Erase, Requested, Fail;
    match e
    case PageTold(p, outcome) =>
      ToldTells(s, p, outcome);
      TellsKeeps(s, t);
    case Resolved(items, now, order, requests) => ResolveKeeps(s, t, items, now, order, requests);
    case Answered(id, reports) =>
      AllTell(s, reports, |reports|);
      TellsKeeps(s, ToldFirst(s, reports, |reports|));
      EraseKeeps(ToldFirst(s, reports, |reports|), id);
    case _ => PlainKeeps(s, e, t);
  }

  lemma PlainKeeps(s: State, e: Event, t: State)
    requires Inv(s) && Next(s, e, t) && (e.PageAsked? || e.PageCleared? || e.AllCleared? || e.Failed?)
    ensures Inv(t)
  {
    hide Brings;
  }

  /** After every step of every run no page holds a negative id, and the id that a page holds is that of a request
      that was sent for it and is under way or has failed. */
  lemma {:induction false} RunKeeps(states: seq<State>, events: seq<Event>, k: nat)
    requires IsRun(states, events) && k <= |events|
    ensures Inv(states[k])
  {
    if k > 0 {
      RunKeeps(states, events, k - 1);
      hide Inv, Next;
      StepKeeps(states[k - 1], events[k - 1], states[k]);
    }
  }

  // ----- what is told of a page

  /** What is known of a page. */
  datatype Facts = Facts(till: int, linked: bool, failed: bool)

  function FactsOf(s: State, p: Page): Facts {
    Facts(TillOf(s.till, p), p in s.linked, p in s.failed)
  }

  /** What a report makes of what was known: that there is none fails a page that waits; a description is taken when it
      settles the page, when the page has neither address nor failure, or when it moves the time of one that waits. */
  function Learn(f: Facts, outcome: Outcome): Facts {
    match outcome
    case Empty => if f.till > 0 then Facts(0, f.linked, true) else f
    case Described(till, hasUrl) =>
      if till == 0 || (!f.linked && !f.failed) || (f.till != 0 && till != f.till && till >= -1)
      then Facts(till, hasUrl, f.failed)
      else f
  }

  /** What the first `k` reports make of it. */
  function Learned(f: Facts, reports: seq<Report>, p: Page, k: nat): Facts
    requires k <= |reports|
  {
    if k == 0 then f
    else
      var before := Learned(f, reports, p, k - 1);
      if reports[k - 1].page == p then Learn(before, reports[k - 1].outcome) else before
  }

  /** The page waited, and a description says that it waits no longer. */
  predicate Settles(f: Facts, outcome: Outcome) {
    outcome.Described? && f.till > 0 && Learn(f, outcome).till <= 0
  }

  /** The page did not wait, and does now. */
  predicate Asks(f: Facts, outcome: Outcome) {
    f.till == 0 && Learn(f, outcome).till > 0
  }

  /** A report on a page: the time it waits, whether there is an address, whether it failed, and whether it is asked
      for. */
  lemma ToldPage(s: State, p: Page, outcome: Outcome)
    ensures var t, f := Told(s, p, outcome), FactsOf(s, p);
      && FactsOf(t, p) == Learn(f, outcome)
      && (p in t.pending <==> (p in s.pending && !Settles(f, outcome)) || Asks(f, outcome))
      && (p in t.pending ==> t.pending[p] == if p in s.pending then s.pending[p] else 0)
  {
  }

  lemma ToldOther(s: State, p: Page, outcome: Outcome, q: Page)
    requires q != p
    ensures var t := Told(s, p, outcome);
      && FactsOf(t, q) == FactsOf(s, q)
      && (q in t.pending <==> q in s.pending) && (q in s.pending ==> t.pending[q] == s.pending[q])
  {
  }

  /** Report by report, in the words of the fields: a settled page waits no more and leaves the map; a page without
      address or failure that did not wait takes a later time and is put down to be asked for; one with an address or
      failure takes none; a page there is none of fails if it waited, and stays in the map. */
  lemma OneReport(s: State, p: Page, till: int, hasUrl: bool)
    requires till > 0
    ensures var t := Told(s, p, Described(0, hasUrl));
      && TillOf(t.till, p) == 0 && (p in t.linked <==> hasUrl) && (p in t.failed <==> p in s.failed)
      && (TillOf(s.till, p) > 0 ==> p !in t.pending)
    ensures var t := Told(s, p, Described(till, hasUrl));
      && (TillOf(s.till, p) == 0 && p !in s.linked && p !in s.failed ==>
            TillOf(t.till, p) == till && (p in t.linked <==> hasUrl) && p in t.pending)
      && (TillOf(s.till, p) == 0 && (p in s.linked || p in s.failed) ==> t == s)
      && (TillOf(s.till, p) > 0 ==>
            TillOf(t.till, p) == till && (p in t.pending <==> p in s.pending))
    ensures var t := Told(s, p, Empty);
      if TillOf(s.till, p) > 0 then TillOf(t.till, p) == 0 && p in t.failed && t.pending == s.pending else t == s
  {
  }

  /** Who asks for a page: it gets into the map exactly when it waits and has not failed; what it held it keeps. */
  lemma AskedOnlyWaiting(s: State, p: Page, q: Page)
    ensures var t := Requested(s, p);
      && (q in t.pending <==> q in s.pending || (q == p && TillOf(s.till, p) != 0 && p !in s.failed))
      && (q in t.pending ==> t.pending[q] == if q in s.pending then s.pending[q] else 0)
  {
  }

  /** One of the reports `from` up to `k` settles the page. */
  predicate SettledIn(f: Facts, reports: seq<Report>, p: Page, from: nat, k: nat)
    requires k <= |reports|
  {
    exists j :: from <= j < k && reports[j].page == p && Settles(Learned(f, reports, p, j), reports[j].outcome)
  }

  /** Report `j` puts the page down, and none up to `k` settles it after that. */
  predicate AskedAt(f: Facts, reports: seq<Report>, p: Page, j: nat, k: nat)
    requires j < k <= |reports|
  {
    && reports[j].page == p && Asks(Learned(f, reports, p, j), reports[j].outcome)
    && !SettledIn(f, reports, p, j + 1, k)
  }

  predicate AskedIn(f: Facts, reports: seq<Report>, p: Page, k: nat)
    requires k <= |reports|
  {
    exists j :: 0 <= j < k && AskedAt(f, reports, p, j, k)
  }

  lemma SettledNext(f: Facts, reports: seq<Report>, p: Page, from: nat, k: nat)
    requires from <= k < |reports|
    ensures SettledIn(f, reports, p, from, k + 1)
      <==> SettledIn(f, reports, p, from, k)
           || (reports[k].page == p && Settles(Learned(f, reports, p, k), reports[k].outcome))
  {
    hide Settles, Learned;
  }

  lemma AskedNext(f: Facts, reports: seq<Report>, p: Page, k: nat)
    requires k < |reports|
    ensures AskedIn(f, reports, p, k + 1)
      <==> (reports[k].page == p && Asks(Learned(f, reports, p, k), reports[k].outcome))
           || (AskedIn(f, reports, p, k)
               && !(reports[k].page == p && Settles(Learned(f, reports, p, k), reports[k].outcome)))
  {
    hide Settles, Asks, Learned, SettledIn;
    NoneSettled(f, reports, p, k + 1);
    var n := k + 1;
    if j :| 0 <= j < n && AskedAt(f, reports, p, j, n) {
      if j < k {
        SettledNext(f, reports, p, j + 1, k);
        assert AskedAt(f, reports, p, j, k);
      }
    }
    if j :| 0 <= j < k && AskedAt(f, reports, p, j, k) {
      SettledNext(f, reports, p, j + 1, k);
      if !(reports[k].page == p && Settles(Learned(f, reports, p, k), reports[k].outcome)) {
        assert AskedAt(f, reports, p, j, k + 1);
      }
    }
    if reports[k].page == p && Asks(Learned(f, reports, p, k), reports[k].outcome) {
      assert AskedAt(f, reports, p, k, k + 1);
    }
  }

  lemma NoneSettled(f: Facts, reports: seq<Report>, p: Page, k: nat)
    requires k <= |reports|
    ensures !SettledIn(f, reports, p, k, k)
  {
  }

  lemma AsksIsNew(f: Facts, outcome: Outcome)
    ensures Asks(f, outcome) ==> !Settles(f, outcome)
  {
  }

  /** What any reports leave of a page, told from the reports and what was known before alone. */
  lemma {:induction false} ReportsSay(s: State, reports: seq<Report>, p: Page, k: nat)
    requires k <= |reports|
    ensures var t, f := ToldFirst(s, reports, k), FactsOf(s, p);
      && FactsOf(t, p) == Learned(f, reports, p, k)
      && (p in t.pending <==> (p in s.pending && !SettledIn(f, reports, p, 0, k)) || AskedIn(f, reports, p, k))
      && (p in t.pending ==>
            t.pending[p] == if p in s.pending && !SettledIn(f, reports, p, 0, k) then s.pending[p] else 0)
  {
    if k > 0 {
      hide Told, SettledIn, AskedIn, Settles, Asks, Learn, FactsOf;
      ReportsSay(s, reports, p, k - 1);
      var t, r, f := ToldFirst(s, reports, k - 1), reports[k - 1], FactsOf(s, p);
      AsksIsNew(FactsOf(t, p), r.outcome);
      SettledNext(f, reports, p, 0, k - 1);
      AskedNext(f, reports, p, k - 1);
      if r.page == p {
        ToldPage(t, p, r.outcome);
      } else {
        ToldOther(t, r.page, r.outcome, p);
      }
    }
  }

  /** An answer removes exactly the pages that hold its request, all of them sent for by it, and those it settles,
      unless it puts them down again; all others keep what they hold. What is known of a page afterwards is what the
      reports say, but that its own pages still waiting after them wait no more and have failed. */
  lemma AnswerRemovesItsOwn(states: seq<State>, events: seq<Event>, k: nat, p: Page)
    requires IsRun(states, events) && k < |events| && events[k].Answered?
    ensures var s, t, id, reports := states[k], states[k + 1], events[k].id, events[k].reports;
      var f, n := FactsOf(s, p), |reports|;
      var g, stays := Learned(f, reports, p, n), p in s.pending && !SettledIn(f, reports, p, 0, n);
      var own := stays && s.pending[p] == id;
      && (own ==> Fetched(s, id, p))
      && (p in t.pending <==> (stays || AskedIn(f, reports, p, n)) && !own)
      && (p in t.pending ==> t.pending[p] == if stays then s.pending[p] else 0)
      && FactsOf(t, p) == if own && g.till > 0 then Facts(0, g.linked, true) else g
  {
    RunKeeps(states, events, k);
    var s, id, reports := states[k], events[k].id, events[k].reports;
    assert Next(s, events[k], states[k + 1]);
    hide IsRun, Told, ToldFirst, SettledIn, AskedIn, Learned, Brings;
    assert id > 0 && id !in s.dropped;
    ReportsSay(s, reports, p, |reports|);
  }

  // ----- pages that nothing will ever ask for again

  /** The page holds the id of a request that is not under way: a resolve takes it for asked, and no answer comes. */
  predicate Stuck(s: State, p: Page) {
    p in s.pending && s.pending[p] != 0 && s.pending[p] !in s.outstanding
  }

  /** The event takes the page out of the map whatever it holds: it is cleared, or told settled. */
  predicate Clears(s: State, e: Event, p: Page) {
    match e
    case PageTold(q, outcome) => q == p && Settles(FactsOf(s, p), outcome)
    case PageCleared(q) => q == p
    case AllCleared => true
    case Answered(id, reports) => SettledIn(FactsOf(s, p), reports, p, 0, |reports|)
    case _ => false
  }

  /** Step `j` is the error answer to the very request that page `p` holds. */
  predicate FailsUnder(states: seq<State>, events: seq<Event>, j: nat, p: Page)
    requires |states| == |events| + 1 && j < |events|
  {
    events[j].Failed? && p in states[j].pending && states[j].pending[p] == events[j].id
  }

  predicate NotCleared(states: seq<State>, events: seq<Event>, p: Page, from: nat, k: nat)
    requires |states| == |events| + 1 && k <= |events|
  {
    forall i :: from <= i < k ==> !Clears(states[i], events[i], p)
  }

  lemma StuckStep(s: State, e: Event, t: State, p: Page)
    requires Inv(s) && Next(s, e, t)
    ensures Stuck(s, p) && !Clears(s, e, p) ==> Stuck(t, p) && t.pending[p] == s.pending[p]
    ensures Stuck(t, p) && !Stuck(s, p) ==> e.Failed? && p in s.pending && s.pending[p] == e.id
    ensures e.Failed? && p in s.pending && s.pending[p] == e.id ==> Stuck(t, p)
    ensures Stuck(t, p) ==> !Clears(s, e, p)
  {
    hide Covers, Brings, Entries, Told, ToldFirst, SettledIn, AskedIn, Learned, Settles, Asks, FactsOf, Resolves;
    match e
    case PageTold(q, outcome) =>
      if q == p { ToldPage(s, p, outcome); } else { ToldOther(s, q, outcome, p); }
      AsksIsNew(FactsOf(s, p), outcome);
      ToldTells(s, q, outcome);
    case Answered(id, reports) =>
      ReportsSay(s, reports, p, |reports|);
      AllTell(s, reports, |reports|);
    case Resolved(items, now, order, requests) => StuckResolve(s, t, items, now, order, requests, p);
    case _ =>
  }

  lemma StuckResolve(s: State, t: State, items: map<Page, Item>, now: int, order: seq<Page>,
                     requests: map<Channel, RequestId>, p: Page)
    requires Inv(s) && Covers(order, s.pending.Keys) && Resolves(s, t, items, now, order, requests)
    ensures Stuck(t, p) <==> Stuck(s, p)
    ensures Stuck(s, p) ==> t.pending[p] == s.pending[p]
  {
    hide Covers, Brings, Entries;
    if p in s.pending {
      if Wanted(s, items, now, p) {
        assert s.pending[p] == 0 && t.pending[p] == requests[items[p].channel];
        assert t.pending[p] in t.outstanding;
      } else {
        assert t.pending[p] == s.pending[p];
      }
    }
  }

  /** Once stuck a page stays stuck, whatever is asked, resolved or answered, until it is cleared or told settled. */
  lemma {:induction false} StuckStays(states: seq<State>, events: seq<Event>, p: Page, from: nat, k: nat)
    requires IsRun(states, events) && from <= k <= |events|
    requires Stuck(states[from], p) && NotCleared(states, events, p, from, k)
    ensures Stuck(states[k], p) && states[k].pending[p] == states[from].pending[p]
  {
    hide Inv, Next, Stuck, Clears;
    if from < k {
      StuckStays(states, events, p, from, k - 1);
      RunKeeps(states, events, k - 1);
      StuckStep(states[k - 1], events[k - 1], states[k], p);
    }
  }

  /** A page is stuck exactly when the request it held has failed and it was neither cleared nor told settled since. */
  lemma {:induction false} StuckIff(states: seq<State>, events: seq<Event>, k: nat, p: Page)
    requires IsRun(states, events) && k <= |events|
    ensures Stuck(states[k], p)
      <==> exists j :: 0 <= j < k && FailsUnder(states, events, j, p) && NotCleared(states, events, p, j + 1, k)
  {
    hide Inv, Next, Stuck, Clears;
    if Stuck(states[k], p) {
      StuckSince(states, events, k, p);
    }
    if j :| 0 <= j < k && FailsUnder(states, events, j, p) && NotCleared(states, events, p, j + 1, k) {
      RunKeeps(states, events, j);
      StuckStep(states[j], events[j], states[j + 1], p);
      StuckStays(states, events, p, j + 1, k);
    }
  }

  lemma NoneStuckAtFirst(states: seq<State>, events: seq<Event>, p: Page)
    requires IsRun(states, events)
    ensures !Stuck(states[0], p)
  {
    hide Next;
  }

  lemma {:induction false} StuckSince(states: seq<State>, events: seq<Event>, k: nat, p: Page)
    requires IsRun(states, events) && k <= |events| && Stuck(states[k], p)
    ensures exists j :: 0 <= j < k && FailsUnder(states, events, j, p) && NotCleared(states, events, p, j + 1, k)
  {
    hide Inv, Next, Stuck, Clears;
    NoneStuckAtFirst(states, events, p);
    if k > 0 {
      RunKeeps(states, events, k - 1);
      StuckStep(states[k - 1], events[k - 1], states[k], p);
      if Stuck(states[k - 1], p) {
        StuckSince(states, events, k - 1, p);
      } else {
        assert FailsUnder(states, events, k - 1, p);
      }
    }
  }

  /** With no request under way a pending page is free to be asked for again exactly when the request it holds is
      not one that failed. */
  lemma FreeUnlessFailed(states: seq<State>, events: seq<Event>, k: nat, p: Page)
    requires IsRun(states, events) && k <= |events| && states[k].outstanding == map[] && p in states[k].pending
    ensures states[k].pending[p] == 0
      <==> !exists j :: 0 <= j < k && FailsUnder(states, events, j, p) && NotCleared(states, events, p, j + 1, k)
  {
    StuckIff(states, events, k, p);
  }

  /** A page waits, is put down and sent for, its request fails; it is told to wait anew and due again. */
  function StrandedEvents(): seq<Event> {
    var items := map[7 := Item(None, 1)];
    [PageTold(7, Described(1, false)), Resolved(items, 5, [7], map[None := 1]), Failed(1),
     PageTold(7, Described(6, false)), Resolved(items, 6, [7], map[])]
  }

  function StrandedStates(): seq<State> {
    var till := map[7 := 1];
    var out := Outgoing(None, [Entry(7, 1)]);
    var left := State(map[7 := 1], till, {}, {}, 2, map[], map[1 := out]);
    [START, State(map[7 := 0], till, {}, {}, 1, map[], map[]),
     State(map[7 := 1], till, {}, {}, 2, map[1 := out], map[]), left,
     left.(till := map[7 := 6]), left.(till := map[7 := 6])]
  }

  /** Nothing is under way and nothing will be, though the page is due, has not failed and still waits. */
  lemma FailureStrands()
    ensures IsRun(StrandedStates(), StrandedEvents())
    ensures var s := StrandedStates()[5];
      s.outstanding == map[] && Stuck(s, 7) && 7 !in s.failed && 0 < TillOf(s.till, 7) <= 6
  {
    hide Resolves;
    var ss, es := StrandedStates(), StrandedEvents();
    FirstResolve();
    SecondResolve();
    assert Covers([7], {7});
    assert ss[1].pending.Keys == {7} && ss[4].pending.Keys == {7};
    hide Covers;
    assert Next(ss[0], es[0], ss[1]) by { assert Told(ss[0], 7, Described(1, false)).pending == map[7 := 0]; }
    assert Next(ss[1], es[1], ss[2]);
    assert Next(ss[2], es[2], ss[3]) by { assert ss[2].outstanding - {1} == map[]; }
    assert Next(ss[3], es[3], ss[4]);
    assert Next(ss[4], es[4], ss[5]);
  }

  lemma FirstResolve()
    ensures Resolves(StrandedStates()[1], StrandedStates()[2], map[7 := Item(None, 1)], 5, [7], map[None := 1])
  {
    var s, items := StrandedStates()[1], map[7 := Item(None, 1)];
    forall c: Channel ensures Entries(s, items, 5, [7], c, 1) == if c.None? then [Entry(7, 1)] else [] {
      assert Entries(s, items, 5, [7], c, 0) == [];
    }
  }

  lemma SecondResolve()
    ensures Resolves(StrandedStates()[4], StrandedStates()[5], map[7 := Item(None, 1)], 6, [7], map[])
  {
    var s, items := StrandedStates()[4], map[7 := Item(None, 1)];
    forall c: Channel ensures Entries(s, items, 6, [7], c, 1) == [] {
      assert Entries(s, items, 6, [7], c, 0) == [];
    }
  }
}
