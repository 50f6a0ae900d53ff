/** More about the message coalescer of `apiwrap.cpp`: when the delayed call is queued, which tables there are, where a
    callback waits, and in what order callbacks run. */
module MessageOrder {
  import opened MapOrder
  import opened MessageData
  import opened Text

  // ----- what every run keeps besides

  predicate Ascending(callbacks: seq<Ticket>, bound: Ticket) {
    && (forall i, j :: 0 <= i < j < |callbacks| ==> callbacks[i] < callbacks[j])
    && forall i :: 0 <= i < |callbacks| ==> callbacks[i] < bound
  }

  /** Callbacks of a message stand in the order they were registered, and no table of a channel is empty. */
  ghost predicate Ordered(s: State) {
    && (forall c, m :: Ascending(EntryOf(s, c, m).callbacks, s.registered))
    && forall c: Channel :: c.Some? && c in s.tables ==> s.tables[c] != map[]
  }

  /** Something waits that no request was sent for. */
  ghost predicate Unasked(s: State) {
    exists c, m :: Has(s, c, m) && EntryOf(s, c, m).requestId == 0
  }

  ghost predicate Tidy(s: State) {
    Ordered(s) && (s.armed ==> Unasked(s))
  }

  lemma RegisterOrdered(s: State, r: Registration)
    requires Ordered(s)
    ensures Ordered(Register(s, r))
  {
    var t := Register(s, r);
    assert r.msg in t.tables[r.channel];
    forall c, m ensures Ascending(EntryOf(t, c, m).callbacks, t.registered) { RegisterAscends(s, r, c, m); }
    forall c: Channel | c.Some? && c in t.tables ensures t.tables[c] != map[] {
      if c != r.channel { assert s.tables[c] != map[]; }
    }
  }

  lemma RegisterAscends(s: State, r: Registration, c: Channel, m: MsgId)
    requires Ordered(s)
    ensures var t := Register(s, r);
      Ascending(EntryOf(t, c, m).callbacks, t.registered)
  {
    RegisterCounts(s, r);
    hide Register, EntryOf;
    assert Ascending(EntryOf(s, c, m).callbacks, s.registered);
    assert Ascending(EntryOf(s, r.channel, r.msg).callbacks, s.registered);
    RegisterEntry(s, r, c, m);
  }

  lemma RegisterCounts(s: State, r: Registration)
    ensures Register(s, r).registered == if r.done then s.registered + 1 else s.registered
  {
  }

  lemma RegisterTidy(s: State, r: Registration)
    requires Tidy(s)
    ensures Tidy(Register(s, r))
  {
    RegisterOrdered(s, r);
    var t := Register(s, r);
    assert t.armed ==> s.armed || EntryOf(s, r.channel, r.msg).requestId == 0;
    RegisterEntry(s, r, r.channel, r.msg);
    hide Register, EntryOf, Has, Ordered;
    if s.armed {
      var c, m :| Has(s, c, m) && EntryOf(s, c, m).requestId == 0;
      RegisterEntry(s, r, c, m);
      assert Has(t, c, m) && EntryOf(t, c, m).requestId == 0;
    }
    if EntryOf(s, r.channel, r.msg).requestId == 0 {
      assert Has(t, r.channel, r.msg) && EntryOf(t, r.channel, r.msg).requestId == 0;
    }
  }

  lemma ResolveOneOrdered(s: State, c: Channel)
    requires Ordered(s)
    ensures Ordered(ResolveOne(s, c))
  {
    var t := ResolveOne(s, c);
    forall c', m ensures Ascending(EntryOf(t, c', m).callbacks, t.registered) {
      assert Ascending(EntryOf(s, c', m).callbacks, s.registered);
      ResolveEntry(s, c, c', m);
    }
    forall c': Channel | c'.Some? && c' in t.tables ensures t.tables[c'] != map[] {
      if c' == c { assert s.tables[c] != map[] && t.tables[c].Keys == s.tables[c].Keys; }
    }
  }

  lemma {:induction false} ResolveOrdered(s: State, order: seq<Channel>, k: nat)
    requires k <= |order| && Ordered(s)
    ensures Ordered(ResolveFirst(s, order, k))
  {
    hide Ordered, ResolveOne;
    if k > 0 {
      ResolveOrdered(s, order, k - 1);
      ResolveOneOrdered(ResolveFirst(s, order, k - 1), order[k - 1]);
    }
  }

  lemma ExtractTidy(s: State, c: Channel, id: RequestId)
    requires Tidy(s) && id != 0
    ensures Tidy(Extract(s, c, id))
  {
    var t := Extract(s, c, id);
    forall c', m ensures Ascending(EntryOf(t, c', m).callbacks, t.registered) {
      assert Ascending(EntryOf(s, c', m).callbacks, s.registered);
      ExtractEntry(s, c, id, c', m);
    }
    forall c': Channel | c'.Some? && c' in t.tables ensures t.tables[c'] != map[] {
      if c' != c { assert s.tables[c'] != map[]; }
    }
    assert t.armed == s.armed;
    hide Extract, EntryOf, Has;
    if s.armed {
      var c', m :| Has(s, c', m) && EntryOf(s, c', m).requestId == 0;
      ExtractEntry(s, c, id, c', m);
      assert Has(t, c', m) && EntryOf(t, c', m).requestId == 0;
    }
  }

  lemma {:induction false} RegisterFirstTidy(s: State, rs: seq<Registration>, k: nat)
    requires k <= |rs| && Tidy(s)
    ensures Tidy(RegisterFirst(s, rs, k))
  {
    hide Tidy, Register;
    if k > 0 {
      RegisterFirstTidy(s, rs, k - 1);
      RegisterTidy(RegisterFirst(s, rs, k - 1), rs[k - 1]);
    }
  }

  lemma RanTidy(s: State, n: Ticket)
    requires Tidy(s)
    ensures Tidy(s.(ran := s.ran + [n]))
  {
    var t := s.(ran := s.ran + [n]);
    assert forall c, m :: Has(t, c, m) == Has(s, c, m) && EntryOf(t, c, m) == EntryOf(s, c, m);
  }

  lemma {:induction false} RunFirstTidy(s: State, callbacks: seq<Ticket>, effects: Effects, k: nat)
    requires k <= |callbacks| && Tidy(s)
    ensures Tidy(RunFirst(s, callbacks, effects, k))
  {
    hide Tidy, RegisterFirst;
    if k > 0 {
      RunFirstTidy(s, callbacks, effects, k - 1);
      var u, n := RunFirst(s, callbacks, effects, k - 1), callbacks[k - 1];
      RanTidy(u, n);
      RegisterFirstTidy(u.(ran := u.ran + [n]), effects(n), |effects(n)|);
    }
  }

  lemma {:induction false} RunTidy(states: seq<State>, events: seq<Event>, effects: Effects, k: nat)
    requires IsRun(states, events, effects) && k <= |events|
    ensures Tidy(states[k])
  {
    if k > 0 {
      RunTidy(states, events, effects, k - 1);
      RunKeeps(states, events, effects, k - 1);
      var s := states[k - 1];
      assert Enabled(s, events[k - 1]) && states[k] == Step(s, events[k - 1], effects);
      hide Tidy, RunFirst, Extract, Register, ResolveFirst, NotTwice, NoneLost, Armed;
      match events[k - 1]
      case Asked(r) => RegisterTidy(s, r);
      case Resolved(channels) => ResolveTidy(s, [None] + channels);
      case Answered(id, order) =>
        var c := s.outstanding[id].channel;
        var callbacks := Collect(TableOf(s, c), order, id, |order|);
        ExtractTidy(s, c, id);
        RunFirstTidy(Extract(s, c, id), callbacks, effects, |callbacks|);
    }
  }

  lemma ResolveTidy(s: State, order: seq<Channel>)
    requires Tidy(s)
    ensures Tidy(ResolveAll(s, order))
  {
    var u := s.(armed := false);
    assert forall c, m :: EntryOf(u, c, m) == EntryOf(s, c, m);
    assert Ordered(u);
    hide Ordered, ResolveFirst;
    ResolveOrdered(u, order, |order|);
    ResolveDisarms(u, order, |order|);
  }

  /** In every run the delayed call is queued exactly while something waits that no request was sent for. */
  lemma ArmedIff(states: seq<State>, events: seq<Event>, effects: Effects, k: nat)
    requires IsRun(states, events, effects) && k <= |events|
    ensures states[k].armed <==> exists c, m :: Has(states[k], c, m) && EntryOf(states[k], c, m).requestId == 0
  {
    RunTidy(states, events, effects, k);
    RunKeeps(states, events, effects, k);
    hide Has, EntryOf, Tagged, NotTwice, NoneLost, Ordered;
  }

  /** In every run there is no table of a channel without an entry. */
  lemma TablesHoldSomething(states: seq<State>, events: seq<Event>, effects: Effects, k: nat, c: nat)
    requires IsRun(states, events, effects) && k <= |events| && Some(c) in states[k].tables
    ensures states[k].tables[Some(c)] != map[]
  {
    RunTidy(states, events, effects, k);
  }

  /** A resolve leaves none behind either, whatever tables it finds. */
  lemma {:induction false} ResolveDropsEmpty(s: State, order: seq<Channel>, k: nat, c: Channel)
    requires k <= |order| && c in order[..k] && c.Some? && c in ResolveFirst(s, order, k).tables
    ensures ResolveFirst(s, order, k).tables[c] != map[]
  {
    var u := ResolveFirst(s, order, k - 1);
    if c == order[k - 1] {
      TagKeepsKeys(u.tables[c], u.nextId);
    } else {
      ResolveDropsEmpty(s, order, k - 1, c);
    }
  }

  lemma TagKeepsKeys(table: Table, id: RequestId)
    ensures Tag(table, id).Keys == table.Keys
  {
  }

  // ----- where callbacks wait, and in what order they run

  /** A callback that is handed over waits at the end of the entry of its own message and channel. */
  lemma AskedWaitsThere(states: seq<State>, events: seq<Event>, effects: Effects, k: nat)
    requires IsRun(states, events, effects) && k < |events| && events[k].Asked? && events[k].registration.done
    ensures var s, t, r := states[k], states[k + 1], events[k].registration;
      && t.registered == s.registered + 1
      && Waits(t, Place(r.channel, r.msg, |EntryOf(s, r.channel, r.msg).callbacks|), s.registered)
  {
    assert states[k + 1] == Step(states[k], events[k], effects);
    var s, r := states[k], events[k].registration;
    RegisterWaits(s, r, NewPlace(s, r), s.registered);
  }

  /** It stays there until it is run. */
  lemma WaitsOrRuns(states: seq<State>, events: seq<Event>, effects: Effects, k: nat, p: Place, n: Ticket)
    requires IsRun(states, events, effects) && k < |events| && Waits(states[k], p, n)
    ensures Waits(states[k + 1], p, n) || n in states[k + 1].ran
  {
    var s, e := states[k], events[k];
    assert Enabled(s, e) && states[k + 1] == Step(s, e, effects);
    RunKeeps(states, events, effects, k);
    hide Waits, Register, RunFirst, Extract, ResolveFirst, NotTwice, NoneLost, Armed, Collect, Due, EntryOf;
    match e
    case Asked(r) => RegisterWaits(s, r, p, n);
    case Resolved(channels) =>
      assert Waits(s.(armed := false), p, n) by { SameWaits(s, p, n); }
      ResolveWaits(s.(armed := false), [None] + channels, |channels| + 1, p, n);
    case Answered(id, order) =>
      var c := s.outstanding[id].channel;
      var callbacks := Collect(TableOf(s, c), order, id, |order|);
      RanAfter(Extract(s, c, id), callbacks, effects, |callbacks|);
      assert callbacks[..|callbacks|] == callbacks;
      ExtractWaits(s, c, id, p, n);
      if Due(s, c, id, p) {
        DueIsCollected(s, c, id, order, p, n);
      } else {
        RunFirstWaits(Extract(s, c, id), callbacks, effects, |callbacks|, p, n);
      }
  }

  lemma SameWaits(s: State, p: Place, n: Ticket)
    requires Waits(s, p, n)
    ensures Waits(s.(armed := false), p, n)
  {
  }

  lemma {:induction false} ResolveWaits(s: State, order: seq<Channel>, k: nat, p: Place, n: Ticket)
    requires k <= |order| && Waits(s, p, n)
    ensures Waits(ResolveFirst(s, order, k), p, n)
  {
    hide ResolveOne, EntryOf;
    if k > 0 {
      ResolveWaits(s, order, k - 1, p, n);
      ResolveEntry(ResolveFirst(s, order, k - 1), order[k - 1], p.channel, p.msg);
    }
  }

  lemma {:induction false} RegisterFirstWaits(s: State, rs: seq<Registration>, k: nat, p: Place, n: Ticket)
    requires k <= |rs| && Waits(s, p, n)
    ensures Waits(RegisterFirst(s, rs, k), p, n)
  {
    hide Register, Waits;
    if k > 0 {
      RegisterFirstWaits(s, rs, k - 1, p, n);
      RegisterWaits(RegisterFirst(s, rs, k - 1), rs[k - 1], p, n);
    }
  }

  lemma {:induction false} RunFirstWaits(s: State, callbacks: seq<Ticket>, effects: Effects, k: nat, p: Place, n: Ticket)
    requires k <= |callbacks| && Waits(s, p, n)
    ensures Waits(RunFirst(s, callbacks, effects, k), p, n)
  {
    hide RegisterFirst;
    if k > 0 {
      RunFirstWaits(s, callbacks, effects, k - 1, p, n);
      var u, i := RunFirst(s, callbacks, effects, k - 1), callbacks[k - 1];
      RegisterFirstWaits(u.(ran := u.ran + [i]), effects(i), |effects(i)|, p, n);
    }
  }

  lemma {:induction false} CollectGrows(table: Table, order: seq<MsgId>, id: RequestId, j: nat, k: nat)
    requires j <= k <= |order|
    ensures Collect(table, order, id, j) <= Collect(table, order, id, k)
  {
    if j < k {
      CollectGrows(table, order, id, j, k - 1);
    }
  }

  /** Where a due callback stands among those collected. */
  lemma CollectedAt(s: State, c: Channel, id: RequestId, order: seq<MsgId>, x: nat, p: Place, n: Ticket)
    requires id != 0 && x < |order| && order[x] == p.msg && Due(s, c, id, p) && Waits(s, p, n)
    ensures var table := TableOf(s, c);
      var at := |Collect(table, order, id, x)| + p.at;
      && |Collect(table, order, id, x + 1)| == |Collect(table, order, id, x)| + |EntryOf(s, c, p.msg).callbacks|
      && at < |Collect(table, order, id, x + 1)| <= |Collect(table, order, id, |order|)|
      && Collect(table, order, id, |order|)[at] == n
  {
    CollectGrows(TableOf(s, c), order, id, x + 1, |order|);
    assert Has(s, c, p.msg);
  }

  lemma CollectedInOrder(s: State, c: Channel, id: RequestId, order: seq<MsgId>, x: nat, y: nat,
                         p: Place, n: Ticket, q: Place, m: Ticket)
    requires Ordered(s) && id != 0 && Covers(order, TableOf(s, c).Keys)
    requires x < |order| && order[x] == p.msg && Due(s, c, id, p) && Waits(s, p, n)
    requires y < |order| && order[y] == q.msg && Due(s, c, id, q) && Waits(s, q, m)
    requires x < y || (p.msg == q.msg && n < m)
    ensures var callbacks := Collect(TableOf(s, c), order, id, |order|);
      exists i, j :: 0 <= i < j < |callbacks| && callbacks[i] == n && callbacks[j] == m
  {
    hide Collect, TableOf, Covers;
    CollectedAt(s, c, id, order, x, p, n);
    CollectedAt(s, c, id, order, y, q, m);
    var callbacks := Collect(TableOf(s, c), order, id, |order|);
    var i := |Collect(TableOf(s, c), order, id, x)| + p.at;
    var j := |Collect(TableOf(s, c), order, id, y)| + q.at;
    if x < y {
      CollectGrows(TableOf(s, c), order, id, x + 1, y);
    } else {
      assert Ascending(EntryOf(s, c, p.msg).callbacks, s.registered);
      SameMessage(order, x, y, s, c);
    }
    assert callbacks[i] == n && callbacks[j] == m;
  }

  /** An answer runs callbacks message by message in the order of the table, and those of one message in the order they
      were registered. */
  lemma AnswerRunsInOrder(states: seq<State>, events: seq<Event>, effects: Effects, k: nat, x: nat, y: nat,
                          p: Place, n: Ticket, q: Place, m: Ticket)
    requires IsRun(states, events, effects) && k < |events| && events[k].Answered?
    requires Waits(states[k], p, n) && Carries(states[k], events[k].id, p.channel, p.msg)
    requires Waits(states[k], q, m) && Carries(states[k], events[k].id, q.channel, q.msg)
    requires x < |events[k].order| && events[k].order[x] == p.msg
    requires y < |events[k].order| && events[k].order[y] == q.msg
    requires x < y || (p.msg == q.msg && n < m)
    ensures var before, after := states[k].ran, states[k + 1].ran;
      exists i, j :: |before| <= i < j < |after| && after[i] == n && after[j] == m
  {
    hide Waits, Collect, EntryOf, Covers, Ordered, Step, Carries, TableOf, Enabled;
    AnswerRan(states, events, effects, k);
    AnswerCollects(states, events, effects, k, x, y, p, n, q, m);
    var s, id, order := states[k], events[k].id, events[k].order;
    var callbacks := Collect(TableOf(s, s.outstanding[id].channel), order, id, |order|);
    var i, j :| 0 <= i < j < |callbacks| && callbacks[i] == n && callbacks[j] == m;
    InFront(s.ran, callbacks, states[k + 1].ran, i, j);
  }

  lemma InFront(before: seq<Ticket>, more: seq<Ticket>, after: seq<Ticket>, i: nat, j: nat)
    requires before + more <= after && i < j < |more|
    ensures exists a, b :: |before| <= a < b < |after| && after[a] == more[i] && after[b] == more[j]
  {
    var a, b := |before| + i, |before| + j;
    assert after[a] == more[i] && after[b] == more[j];
  }

  /** What an answer runs comes first among what runs at its step. */
  lemma AnswerRan(states: seq<State>, events: seq<Event>, effects: Effects, k: nat)
    requires IsRun(states, events, effects) && k < |events| && events[k].Answered?
    ensures var s, id, order := states[k], events[k].id, events[k].order;
      && id in s.outstanding
      && s.ran + Collect(TableOf(s, s.outstanding[id].channel), order, id, |order|) <= states[k + 1].ran
  {
    var s, id, order := states[k], events[k].id, events[k].order;
    assert Enabled(s, events[k]) && states[k + 1] == Step(s, events[k], effects);
    hide Collect, Extract, RunFirst, Covers, IsRun, TableOf;
    var c := s.outstanding[id].channel;
    var callbacks := Collect(TableOf(s, c), order, id, |order|);
    RanAfter(Extract(s, c, id), callbacks, effects, |callbacks|);
    assert callbacks[..|callbacks|] == callbacks;
    ExtractRuns(s, c, id);
  }

  lemma AnswerCollects(states: seq<State>, events: seq<Event>, effects: Effects, k: nat, x: nat, y: nat,
                       p: Place, n: Ticket, q: Place, m: Ticket)
    requires IsRun(states, events, effects) && k < |events| && events[k].Answered?
    requires Waits(states[k], p, n) && Carries(states[k], events[k].id, p.channel, p.msg)
    requires Waits(states[k], q, m) && Carries(states[k], events[k].id, q.channel, q.msg)
    requires x < |events[k].order| && events[k].order[x] == p.msg
    requires y < |events[k].order| && events[k].order[y] == q.msg
    requires x < y || (p.msg == q.msg && n < m)
    ensures events[k].id in states[k].outstanding
    ensures var s, id, order := states[k], events[k].id, events[k].order;
      var callbacks := Collect(TableOf(s, s.outstanding[id].channel), order, id, |order|);
      exists i, j :: 0 <= i < j < |callbacks| && callbacks[i] == n && callbacks[j] == m
  {
    hide Waits, Collect, EntryOf, Covers, Ordered, Step;
    var s, id, order := states[k], events[k].id, events[k].order;
    RunKeeps(states, events, effects, k);
    RunTidy(states, events, effects, k);
    assert Enabled(s, events[k]);
    hide NotTwice, NoneLost, Armed, IsRun, Has;
    var c := s.outstanding[id].channel;
    assert Due(s, c, id, p) && Due(s, c, id, q);
    CollectedInOrder(s, c, id, order, x, y, p, n, q, m);
  }

  lemma ExtractRuns(s: State, c: Channel, id: RequestId)
    ensures Extract(s, c, id).ran == s.ran
  {
  }

  lemma SameMessage(order: seq<MsgId>, x: nat, y: nat, s: State, c: Channel)
    requires Covers(order, TableOf(s, c).Keys) && x < |order| && y < |order| && order[x] == order[y]
    ensures x == y
  {
  }

  /** At a resolve the common table is served first: of the new requests, its own has the first id. */
  lemma CommonFirst(states: seq<State>, events: seq<Event>, effects: Effects, k: nat, id: RequestId)
    requires IsRun(states, events, effects) && k < |events| && events[k].Resolved?
    requires id in states[k + 1].outstanding && id !in states[k].outstanding
    ensures states[k].nextId <= id < states[k + 1].nextId
    ensures states[k + 1].outstanding[id].channel == None <==> id == states[k].nextId && Unasking(states[k])
  {
    var s, order := states[k].(armed := false), [None] + events[k].channels;
    assert Enabled(states[k], events[k]) && states[k + 1] == Step(states[k], events[k], effects);
    CoversOnce(order, s.tables.Keys);
    NewRequests(s, order, |order|, id);
  }

  /** The common table holds a message that was not asked for. */
  predicate Unasking(s: State) {
    None in s.tables && (set m | m in s.tables[None] && s.tables[None][m].requestId == 0) != {}
  }

  lemma CoversOnce(order: seq<Channel>, keys: set<Channel>)
    requires Covers(order, keys)
    ensures forall i, j :: 0 <= i < j < |order| ==> order[i] != order[j]
  {
  }

  lemma {:induction false} NewRequests(s: State, order: seq<Channel>, k: nat, id: RequestId)
    requires 1 <= k <= |order| && order[0] == None && forall i, j :: 0 <= i < j < |order| ==> order[i] != order[j]
    ensures var t := ResolveFirst(s, order, k);
      && s.nextId <= t.nextId && (Unasking(s) ==> s.nextId < t.nextId)
      && (id in t.outstanding && id !in s.outstanding ==>
            s.nextId <= id < t.nextId && (t.outstanding[id].channel == None <==> id == s.nextId && Unasking(s)))
  {
    var u := ResolveFirst(s, order, k - 1);
    assert ResolveFirst(s, order, 0) == s;
    if k > 1 {
      NewRequests(s, order, k - 1, id);
    } else {
      assert Unasking(s) <==> None in s.tables && Untagged(s.tables[None]) != {};
    }
  }
}
