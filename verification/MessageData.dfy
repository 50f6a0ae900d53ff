/**
 * The message-data coalescer of `apiwrap.cpp`: callers ask for a message and leave a callback, a delayed
 * call turns what is waiting into one request per channel, and each answer runs the callbacks it covers.
 */
module MessageData {
  import opened MapOrder
  import opened Tally
  import opened Text

  /** None is the table for everything that is not a channel. */
  type Channel = Option<nat>
  type MsgId = int
  type RequestId = nat
  /** Callbacks are numbered in the order they are registered. */
  type Ticket = nat

  datatype Request = Request(requestId: RequestId, callbacks: seq<Ticket>)
  type Table = map<MsgId, Request>

  /** A call of `requestMessageData`, with or without a callback. */
  datatype Registration = Registration(channel: Channel, msg: MsgId, done: bool)

  /** What running a callback registers in turn. */
  type Effects = Ticket -> seq<Registration>

  /** A request under way and the ids it carried. */
  datatype Outgoing = Outgoing(channel: Channel, ids: set<MsgId>)

  /** `armed` is the queued `_messageDataResolveDelayed` call; `outstanding`, `registered` and `ran` are history. */
  datatype State = State(
    tables: map<Channel, Table>, armed: bool, nextId: RequestId,
    outstanding: map<RequestId, Outgoing>, registered: Ticket, ran: seq<Ticket>)

  const START: State := State(map[None := map[]], false, 1, map[], 0, [])

  const NO_REQUEST: Request := Request(0, [])

  // ----- what each handler does

  function TableOf(s: State, c: Channel): Table {
    if c in s.tables then s.tables[c] else map[]
  }

  predicate Has(s: State, c: Channel, m: MsgId) {
    m in TableOf(s, c)
  }

  function EntryOf(s: State, c: Channel, m: MsgId): Request {
    if Has(s, c, m) then TableOf(s, c)[m] else NO_REQUEST
  }

  function Register(s: State, r: Registration): State {
    var entry := EntryOf(s, r.channel, r.msg);
    var callbacks := if r.done then entry.callbacks + [s.registered] else entry.callbacks;
    s.(tables := s.tables[r.channel := TableOf(s, r.channel)[r.msg := entry.(callbacks := callbacks)]],
       armed := s.armed || entry.requestId == 0,
       registered := if r.done then s.registered + 1 else s.registered)
  }

  function Untagged(table: Table): set<MsgId> {
    set m | m in table && table[m].requestId == 0
  }

  function Tag(table: Table, id: RequestId): Table {
    map m | m in table :: if table[m].requestId == 0 then table[m].(requestId := id) else table[m]
  }

  /** One table of `resolveMessageDatas`. */
  function ResolveOne(s: State, c: Channel): State {
    if c !in s.tables then s
    else if s.tables[c] == map[] then (if c.None? then s else s.(tables := s.tables - {c}))
    else if Untagged(s.tables[c]) == {} then s
    else
      s.(tables := s.tables[c := Tag(s.tables[c], s.nextId)],
         outstanding := s.outstanding[s.nextId := Outgoing(c, Untagged(s.tables[c]))],
         nextId := s.nextId + 1)
  }

  function ResolveFirst(s: State, order: seq<Channel>, k: nat): State
    requires k <= |order|
  {
    if k == 0 then s else ResolveOne(ResolveFirst(s, order, k - 1), order[k - 1])
  }

  function ResolveAll(s: State, order: seq<Channel>): State {
    ResolveFirst(s.(armed := false), order, |order|)
  }

  /** The callbacks of the entries tagged with `id` among the first `k` of the table. */
  function Collect(table: Table, order: seq<MsgId>, id: RequestId, k: nat): seq<Ticket>
    requires k <= |order|
  {
    if k == 0 then []
    else
      var m := order[k - 1];
      Collect(table, order, id, k - 1)
      + (if m in table && table[m].requestId == id then table[m].callbacks else [])
  }

  function Without(table: Table, id: RequestId): Table {
    map m | m in table && table[m].requestId != id :: table[m]
  }

  /** The erasing loop of `finalizeMessageDataRequest`. */
  function Extract(s: State, c: Channel, id: RequestId): State {
    var answered := s.(outstanding := s.outstanding - {id});
    if c !in s.tables then answered
    else
      var rest := Without(s.tables[c], id);
      answered.(tables := if c.Some? && rest == map[] then s.tables - {c} else s.tables[c := rest])
  }

  function RegisterFirst(s: State, rs: seq<Registration>, k: nat): State
    requires k <= |rs|
  {
    if k == 0 then s else Register(RegisterFirst(s, rs, k - 1), rs[k - 1])
  }

  function RunOne(s: State, n: Ticket, effects: Effects): State {
    RegisterFirst(s.(ran := s.ran + [n]), effects(n), |effects(n)|)
  }

  function RunFirst(s: State, callbacks: seq<Ticket>, effects: Effects, k: nat): State
    requires k <= |callbacks|
  {
    if k == 0 then s else RunOne(RunFirst(s, callbacks, effects, k - 1), callbacks[k - 1], effects)
  }

  function Finalize(s: State, c: Channel, id: RequestId, order: seq<MsgId>, effects: Effects): State {
    var callbacks := Collect(TableOf(s, c), order, id, |order|);
    RunFirst(Extract(s, c, id), callbacks, effects, |callbacks|)
  }

  // ----- the object itself; loops take the map's own order as a parameter

  class Coalescer {
    var tables: map<Channel, Table>
    var armed: bool
    var nextId: RequestId
    var registered: Ticket
    const effects: Effects
    ghost var outstanding: map<RequestId, Outgoing>
    ghost var ran: seq<Ticket>

    ghost function Now(): State reads this {
      State(tables, armed, nextId, outstanding, registered, ran)
    }

    constructor (effects: Effects)
      ensures Now() == START && this.effects == effects
    {
      this.effects := effects;
      tables, armed, nextId, registered := map[None := map[]], false, 1, 0;
      outstanding, ran := map[], [];
    }

    method RequestMessageData(r: Registration)
      modifies this
      ensures Now() == Register(old(Now()), r)
    {
      var table := if r.channel in tables then tables[r.channel] else map[];
      var request := if r.msg in table then table[r.msg] else NO_REQUEST;
      if r.done {
        request := request.(callbacks := request.callbacks + [registered]);
        registered := registered + 1;
      }
      tables := tables[r.channel := table[r.msg := request]];
      if request.requestId == 0 {
        armed := true;
      }
    }

    /** The delayed call runs: first the common table, then every channel. */
    method ResolveMessageDatas(channels: seq<Channel>)
      requires Covers([None] + channels, tables.Keys)
      modifies this
      ensures Now() == ResolveAll(old(Now()), [None] + channels)
    {
      hide ResolveOne, Covers;
      armed := false;
      ghost var start := Now();
      ghost var order: seq<Channel> := [None] + channels;
      ResolveTable(None);
      assert Now() == ResolveFirst(start, order, 1) by {
        assert ResolveFirst(start, order, 0) == start && order[0] == None;
      }
      for k := 0 to |channels|
        invariant Now() == ResolveFirst(start, order, k + 1)
      {
        ResolveTable(channels[k]);
      }
    }

    method ResolveTable(c: Channel)
      modifies this
      ensures Now() == ResolveOne(old(Now()), c)
    {
      if c !in tables { return; }
      var table := tables[c];
      if table == map[] {
        if c.Some? { tables := tables - {c}; }
        return;
      }
      var ids := Untagged(table);
      if ids != {} {
        var requestId := nextId;
        nextId := nextId + 1;
        outstanding := outstanding[requestId := Outgoing(c, ids)];
        tables := tables[c := Tag(table, requestId)];
      }
    }

    /** The done and fail answers both end here; a missing table collects nothing. */
    method FinalizeMessageDataRequest(c: Channel, requestId: RequestId, order: seq<MsgId>)
      requires Covers(order, TableOf(Now(), c).Keys)
      modifies this
      ensures Now() == Finalize(old(Now()), c, requestId, order, effects)
    {
      hide RunOne, Covers, Without;
      ghost var start := Now();
      outstanding := outstanding - {requestId};
      var table := if c in tables then tables[c] else map[];
      var callbacks: seq<Ticket> := [];
      for k := 0 to |order|
        invariant callbacks == Collect(table, order, requestId, k)
      {
        var m := order[k];
        callbacks := callbacks + if m in table && table[m].requestId == requestId then table[m].callbacks else [];
      }
      if c in tables {
        var rest := Without(table, requestId);
        tables := if c.Some? && rest == map[] then tables - {c} else tables[c := rest];
      }
      ghost var extracted := Now();
      for k := 0 to |callbacks|
        invariant Now() == RunFirst(extracted, callbacks, effects, k)
      {
        RunCallback(callbacks[k]);
      }
    }

    method RunCallback(n: Ticket)
      modifies this
      ensures Now() == RunOne(old(Now()), n, effects)
    {
      hide Register;
      ran := ran + [n];
      ghost var start := Now();
      var rs := effects(n);
      for k := 0 to |rs|
        invariant Now() == RegisterFirst(start, rs, k)
      {
        RequestMessageData(rs[k]);
      }
    }
  }

  // ----- the invariant

  /** A place among the callbacks of one entry. */
  datatype Place = Place(channel: Channel, msg: MsgId, at: nat)

  predicate Waits(s: State, p: Place, n: Ticket) {
    p.at < |EntryOf(s, p.channel, p.msg).callbacks| && EntryOf(s, p.channel, p.msg).callbacks[p.at] == n
  }

  predicate Carries(s: State, id: RequestId, c: Channel, m: MsgId) {
    id in s.outstanding && s.outstanding[id].channel == c && m in s.outstanding[id].ids
  }

  /** Entries and requests under way point at each other. */
  ghost predicate Tagged(s: State) {
    && s.nextId > 0
    && (forall c, m :: Has(s, c, m) && EntryOf(s, c, m).requestId != 0 ==> Carries(s, EntryOf(s, c, m).requestId, c, m))
    && (forall id: RequestId, c, m :: Carries(s, id, c, m) ==> Has(s, c, m) && EntryOf(s, c, m).requestId == id)
    && (forall id :: id in s.outstanding ==> 0 < id < s.nextId)
  }

  /** Whatever waits without a request has the delayed call queued. */
  ghost predicate Armed(s: State) {
    forall c, m :: Has(s, c, m) && EntryOf(s, c, m).requestId == 0 ==> s.armed
  }

  /** No callback is in two places: waiting, taken out to be run, or run. */
  ghost predicate NotTwice(s: State, taken: set<Ticket>) {
    && (forall p, n: Ticket :: Waits(s, p, n) ==> n < s.registered && n !in taken && n !in s.ran)
    && (forall p, q, n: Ticket :: Waits(s, p, n) && Waits(s, q, n) ==> p == q)
    && (forall n :: n in taken ==> n < s.registered && n !in s.ran)
    && (forall n :: n in s.ran ==> n < s.registered)
    && (forall i, j :: 0 <= i < j < |s.ran| ==> s.ran[i] != s.ran[j])
  }

  ghost predicate Placed(s: State, n: Ticket, taken: set<Ticket>) {
    n in taken || n in s.ran || exists p :: Waits(s, p, n)
  }

  /** No callback is lost. */
  ghost predicate NoneLost(s: State, taken: set<Ticket>) {
    forall n: Ticket :: n < s.registered ==> Placed(s, n, taken)
  }

  ghost predicate Inv(s: State, taken: set<Ticket>) {
    Tagged(s) && Armed(s) && NotTwice(s, taken) && NoneLost(s, taken)
  }

  // ----- registering keeps it

  lemma RegisterEntry(s: State, r: Registration, c: Channel, m: MsgId)
    ensures !(c == r.channel && m == r.msg) ==>
      Has(Register(s, r), c, m) == Has(s, c, m) && EntryOf(Register(s, r), c, m) == EntryOf(s, c, m)
    ensures Has(Register(s, r), r.channel, r.msg)
    ensures EntryOf(Register(s, r), r.channel, r.msg).requestId == EntryOf(s, r.channel, r.msg).requestId
    ensures EntryOf(Register(s, r), r.channel, r.msg).callbacks
         == EntryOf(s, r.channel, r.msg).callbacks + if r.done then [s.registered] else []
  {
  }

  function NewPlace(s: State, r: Registration): Place {
    Place(r.channel, r.msg, |EntryOf(s, r.channel, r.msg).callbacks|)
  }

  lemma RegisterWaits(s: State, r: Registration, p: Place, n: Ticket)
    ensures Waits(Register(s, r), p, n) <==> Waits(s, p, n) || (r.done && p == NewPlace(s, r) && n == s.registered)
  {
    RegisterEntry(s, r, p.channel, p.msg);
    hide Register, EntryOf, Has;
  }

  lemma RegisterTagged(s: State, r: Registration)
    requires Tagged(s) && Armed(s)
    ensures Tagged(Register(s, r)) && Armed(Register(s, r))
  {
    var t := Register(s, r);
    assert t.outstanding == s.outstanding && t.nextId == s.nextId && (s.armed ==> t.armed);
    assert EntryOf(s, r.channel, r.msg).requestId == 0 ==> t.armed;
    forall c, m
      ensures Has(t, c, m) && EntryOf(t, c, m).requestId != 0 ==> Carries(t, EntryOf(t, c, m).requestId, c, m)
      ensures Has(t, c, m) && EntryOf(t, c, m).requestId == 0 ==> t.armed
    {
      RegisterEntry(s, r, c, m);
      hide Register, EntryOf, Has;
    }
    forall id: RequestId, c, m | Carries(t, id, c, m)
      ensures Has(t, c, m) && EntryOf(t, c, m).requestId == id
    {
      RegisterEntry(s, r, c, m);
      assert Carries(s, id, c, m);
      hide Register, EntryOf, Has;
    }
  }

  lemma RegisterPlaces(s: State, r: Registration, taken: set<Ticket>)
    requires NotTwice(s, taken) && NoneLost(s, taken)
    ensures NotTwice(Register(s, r), taken) && NoneLost(Register(s, r), taken)
  {
    var t := Register(s, r);
    var added := NewPlace(s, r);
    assert t.ran == s.ran && t.registered == s.registered + if r.done then 1 else 0;
    hide Register, Waits, EntryOf, NewPlace;
    forall p, n: Ticket ensures Waits(t, p, n) <==> Waits(s, p, n) || (r.done && p == added && n == s.registered) {
      RegisterWaits(s, r, p, n);
    }
    forall n: Ticket | n < t.registered ensures Placed(t, n, taken) {
      if n < s.registered {
        assert Placed(s, n, taken);
      } else {
        assert Waits(t, added, n);
      }
    }
  }

  lemma RegisterKeeps(s: State, r: Registration, taken: set<Ticket>)
    requires Inv(s, taken)
    ensures Inv(Register(s, r), taken)
  {
    hide Tagged, Armed, NotTwice, NoneLost, Register;
    RegisterTagged(s, r);
    RegisterPlaces(s, r, taken);
  }

  // ----- resolving keeps it

  lemma ResolveEntry(s: State, c: Channel, c': Channel, m: MsgId)
    ensures Has(ResolveOne(s, c), c', m) == Has(s, c', m)
    ensures EntryOf(ResolveOne(s, c), c', m).callbacks == EntryOf(s, c', m).callbacks
    ensures EntryOf(ResolveOne(s, c), c', m).requestId
         == if c' == c && Has(s, c, m) && EntryOf(s, c, m).requestId == 0 then s.nextId else EntryOf(s, c', m).requestId
  {
    if Has(s, c, m) && EntryOf(s, c, m).requestId == 0 {
      assert m in Untagged(s.tables[c]);
    }
  }

  lemma ResolveCarries(s: State, c: Channel, id: RequestId, c': Channel, m: MsgId)
    requires s.nextId !in s.outstanding
    ensures Carries(ResolveOne(s, c), id, c', m)
      <==> Carries(s, id, c', m) || (id == s.nextId && c' == c && Has(s, c, m) && EntryOf(s, c, m).requestId == 0)
  {
    if Has(s, c, m) && EntryOf(s, c, m).requestId == 0 {
      assert m in Untagged(s.tables[c]);
    }
  }

  lemma ResolveIds(s: State, c: Channel, id: RequestId)
    requires id in ResolveOne(s, c).outstanding
    ensures id in s.outstanding || (id == s.nextId && s.nextId < ResolveOne(s, c).nextId)
  {
  }

  lemma ResolveTagged(s: State, c: Channel)
    requires Tagged(s)
    ensures Tagged(ResolveOne(s, c))
  {
    var t := ResolveOne(s, c);
    assert s.nextId <= t.nextId;
    assert s.nextId !in s.outstanding;
    hide ResolveOne, Carries, EntryOf, Has;
    forall c', m | Has(t, c', m) && EntryOf(t, c', m).requestId != 0
      ensures Carries(t, EntryOf(t, c', m).requestId, c', m)
    {
      ResolveEntry(s, c, c', m);
      ResolveCarries(s, c, EntryOf(t, c', m).requestId, c', m);
    }
    forall id: RequestId, c', m | Carries(t, id, c', m)
      ensures Has(t, c', m) && EntryOf(t, c', m).requestId == id
    {
      ResolveEntry(s, c, c', m);
      ResolveCarries(s, c, id, c', m);
      CarriedId(s, id, c', m);
    }
    forall id | id in t.outstanding ensures 0 < id < t.nextId {
      ResolveIds(s, c, id);
    }
  }

  lemma CarriedId(s: State, id: RequestId, c: Channel, m: MsgId)
    requires Tagged(s)
    ensures Carries(s, id, c, m) ==> 0 < id < s.nextId
  {
  }

  /** Nothing in the table of `c` waits without a request. */
  ghost predicate Clear(s: State, c: Channel) {
    forall m :: Has(s, c, m) ==> EntryOf(s, c, m).requestId != 0
  }

  lemma ResolveClears(s: State, c: Channel, c': Channel)
    requires s.nextId > 0
    ensures c' == c || Clear(s, c') ==> Clear(ResolveOne(s, c), c')
  {
    hide ResolveOne, EntryOf, Has;
    forall m | c' == c || Clear(s, c')
      ensures Has(ResolveOne(s, c), c', m) ==> EntryOf(ResolveOne(s, c), c', m).requestId != 0
    {
      ResolveEntry(s, c, c', m);
    }
  }

  lemma SamePlaces(s: State, t: State, taken: set<Ticket>)
    requires NotTwice(s, taken) && NoneLost(s, taken)
    requires t.registered == s.registered && t.ran == s.ran
    requires forall p, n: Ticket :: Waits(t, p, n) <==> Waits(s, p, n)
    ensures NotTwice(t, taken) && NoneLost(t, taken)
  {
    hide Waits;
    forall n: Ticket | n < t.registered ensures Placed(t, n, taken) {
      assert Placed(s, n, taken);
    }
  }

  lemma ResolvePlaces(s: State, c: Channel, taken: set<Ticket>)
    requires NotTwice(s, taken) && NoneLost(s, taken)
    ensures NotTwice(ResolveOne(s, c), taken) && NoneLost(ResolveOne(s, c), taken)
  {
    hide NotTwice, NoneLost, EntryOf;
    var t := ResolveOne(s, c);
    assert t.registered == s.registered && t.ran == s.ran && t.armed == s.armed;
    hide ResolveOne;
    forall p, n: Ticket ensures Waits(t, p, n) <==> Waits(s, p, n) {
      ResolveEntry(s, c, p.channel, p.msg);
    }
    SamePlaces(s, t, taken);
  }

  lemma {:induction false} ResolveFirstKeeps(s: State, order: seq<Channel>, k: nat, taken: set<Ticket>)
    requires k <= |order| && Tagged(s) && NotTwice(s, taken) && NoneLost(s, taken)
    ensures var t := ResolveFirst(s, order, k);
      Tagged(t) && NotTwice(t, taken) && NoneLost(t, taken) && forall c :: Clear(s, c) || c in order[..k] ==> Clear(t, c)
  {
    hide ResolveOne, NotTwice, NoneLost, Clear;
    if k > 0 {
      ResolveFirstKeeps(s, order, k - 1, taken);
      var u := ResolveFirst(s, order, k - 1);
      ResolveTagged(u, order[k - 1]);
      ResolvePlaces(u, order[k - 1], taken);
      forall c | Clear(s, c) || c in order[..k] ensures Clear(ResolveFirst(s, order, k), c) {
        ResolveClears(u, order[k - 1], c);
      }
    }
  }

  lemma ResolveKeeps(s: State, order: seq<Channel>, taken: set<Ticket>)
    requires Inv(s, taken) && Covers(order, s.tables.Keys)
    ensures Inv(ResolveAll(s, order), taken)
  {
    var u := s.(armed := false);
    var t := ResolveAll(s, order);
    assert Tagged(u) by {
      assert forall id: RequestId, c, m :: Carries(u, id, c, m) <==> Carries(s, id, c, m);
      assert forall c, m :: Has(u, c, m) == Has(s, c, m) && EntryOf(u, c, m) == EntryOf(s, c, m);
    }
    assert NotTwice(u, taken) && NoneLost(u, taken) by { SamePlaces(s, u, taken); }
    ResolveFirstKeeps(u, order, |order|, taken);
    assert order[..|order|] == order;
    forall c, m | Has(t, c, m) ensures EntryOf(t, c, m).requestId != 0 {
      assert c in order || Clear(u, c);
      assert Clear(t, c);
    }
  }

  // ----- an answer keeps it

  lemma ExtractEntry(s: State, c: Channel, id: RequestId, c': Channel, m: MsgId)
    ensures Has(Extract(s, c, id), c', m) <==> Has(s, c', m) && !(c' == c && EntryOf(s, c, m).requestId == id)
    ensures EntryOf(Extract(s, c, id), c', m) == if Has(Extract(s, c, id), c', m) then EntryOf(s, c', m) else NO_REQUEST
  {
    if c in s.tables && m in s.tables[c] && s.tables[c][m].requestId != id {
      assert m in Without(s.tables[c], id);
    }
  }

  lemma ExtractTagged(s: State, c: Channel, id: RequestId)
    requires Tagged(s) && Armed(s) && id in s.outstanding && s.outstanding[id].channel == c
    ensures Tagged(Extract(s, c, id)) && Armed(Extract(s, c, id))
  {
    var t := Extract(s, c, id);
    assert t.outstanding == s.outstanding - {id} && t.nextId == s.nextId && t.armed == s.armed;
    hide Extract, EntryOf, Has;
    forall c', m | Has(t, c', m) ensures Has(s, c', m) && EntryOf(t, c', m) == EntryOf(s, c', m) {
      ExtractEntry(s, c, id, c', m);
    }
    forall c', m | Has(t, c', m) && EntryOf(t, c', m).requestId != 0
      ensures Carries(t, EntryOf(t, c', m).requestId, c', m)
    {
      ExtractEntry(s, c, id, c', m);
      assert Carries(s, EntryOf(s, c', m).requestId, c', m);
    }
    forall other: RequestId, c', m | Carries(t, other, c', m)
      ensures Has(t, c', m) && EntryOf(t, c', m).requestId == other
    {
      ExtractEntry(s, c, id, c', m);
      assert Carries(s, other, c', m);
    }
  }

  /** The callbacks an answer to `id` is due. */
  predicate Due(s: State, c: Channel, id: RequestId, p: Place) {
    p.channel == c && EntryOf(s, c, p.msg).requestId == id
  }

  lemma ExtractWaits(s: State, c: Channel, id: RequestId, p: Place, n: Ticket)
    requires id != 0
    ensures Waits(Extract(s, c, id), p, n) <==> Waits(s, p, n) && !Due(s, c, id, p)
  {
    ExtractEntry(s, c, id, p.channel, p.msg);
    hide Extract;
  }

  lemma {:induction false} CollectFinds(s: State, c: Channel, id: RequestId, order: seq<MsgId>, k: nat, i: nat)
      returns (p: Place)
    requires id != 0 && k <= |order| && i < |Collect(TableOf(s, c), order, id, k)|
    ensures Due(s, c, id, p) && Waits(s, p, Collect(TableOf(s, c), order, id, k)[i]) && p.msg in order[..k]
  {
    var before := Collect(TableOf(s, c), order, id, k - 1);
    if i < |before| {
      p := CollectFinds(s, c, id, order, k - 1, i);
    } else {
      p := Place(c, order[k - 1], i - |before|);
    }
  }

  lemma {:induction false} CollectHolds(s: State, c: Channel, id: RequestId, order: seq<MsgId>, k: nat, p: Place,
                                        n: Ticket)
    requires id != 0 && k <= |order| && Due(s, c, id, p) && Waits(s, p, n) && p.msg in order[..k]
    ensures n in Collect(TableOf(s, c), order, id, k)
  {
    if p.msg == order[k - 1] {
      assert TableOf(s, c)[p.msg].callbacks[p.at] == n;
    } else {
      CollectHolds(s, c, id, order, k - 1, p, n);
    }
  }

  lemma {:induction false} CollectDistinct(s: State, c: Channel, id: RequestId, order: seq<MsgId>, k: nat,
                                           taken: set<Ticket>, i: nat, j: nat)
    requires id != 0 && k <= |order| && NotTwice(s, taken)
    requires forall a, b :: 0 <= a < b < |order| ==> order[a] != order[b]
    requires i < j < |Collect(TableOf(s, c), order, id, k)|
    ensures Collect(TableOf(s, c), order, id, k)[i] != Collect(TableOf(s, c), order, id, k)[j]
  {
    var all := Collect(TableOf(s, c), order, id, k);
    var before := Collect(TableOf(s, c), order, id, k - 1);
    if j < |before| {
      CollectDistinct(s, c, id, order, k - 1, taken, i, j);
    } else {
      var q := Place(c, order[k - 1], j - |before|);
      assert Waits(s, q, all[j]);
      if i < |before| {
        var p := CollectFinds(s, c, id, order, k - 1, i);
        assert p.msg != q.msg;
        assert Waits(s, p, all[i]);
      } else {
        var p := Place(c, order[k - 1], i - |before|);
        assert Waits(s, p, all[i]);
      }
    }
  }

  /** What is left to run once the first `k` callbacks have run. */
  function Rest(callbacks: seq<Ticket>, k: nat): set<Ticket>
    requires k <= |callbacks|
  {
    set i | k <= i < |callbacks| :: callbacks[i]
  }

  lemma CollectedIsDue(s: State, c: Channel, id: RequestId, order: seq<MsgId>, n: Ticket) returns (p: Place)
    requires id != 0 && n in Collect(TableOf(s, c), order, id, |order|)
    ensures Due(s, c, id, p) && Waits(s, p, n) && p.msg in order
  {
    var callbacks := Collect(TableOf(s, c), order, id, |order|);
    hide Collect, TableOf, Due, Waits;
    var i :| 0 <= i < |callbacks| && callbacks[i] == n;
    p := CollectFinds(s, c, id, order, |order|, i);
  }

  lemma DueIsCollected(s: State, c: Channel, id: RequestId, order: seq<MsgId>, p: Place, n: Ticket)
    requires id != 0 && Covers(order, TableOf(s, c).Keys)
    requires Due(s, c, id, p) && Waits(s, p, n)
    ensures n in Collect(TableOf(s, c), order, id, |order|)
  {
    assert p.msg in TableOf(s, c).Keys;
    hide Collect;
    assert order[..|order|] == order;
    CollectHolds(s, c, id, order, |order|, p, n);
  }

  /** Taking the due callbacks out of the table moves each from its place into `taken`. */
  lemma MovedOut(s: State, t: State, taken: set<Ticket>, due: Place -> bool)
    requires NotTwice(s, {}) && NoneLost(s, {})
    requires t.registered == s.registered && t.ran == s.ran
    requires forall p, n: Ticket :: Waits(t, p, n) <==> Waits(s, p, n) && !due(p)
    requires forall p, n: Ticket :: Waits(s, p, n) && due(p) ==> n in taken
    requires forall n :: n in taken ==> exists p :: due(p) && Waits(s, p, n)
    ensures NotTwice(t, taken) && NoneLost(t, taken)
  {
    hide Waits;
    forall n: Ticket | n < t.registered ensures Placed(t, n, taken) {
      assert Placed(s, n, {});
    }
  }

  lemma ExtractPlaces(s: State, c: Channel, id: RequestId, order: seq<MsgId>)
    requires NotTwice(s, {}) && NoneLost(s, {}) && id != 0 && Covers(order, TableOf(s, c).Keys)
    ensures var callbacks := Collect(TableOf(s, c), order, id, |order|);
      NotTwice(Extract(s, c, id), Rest(callbacks, 0)) && NoneLost(Extract(s, c, id), Rest(callbacks, 0))
  {
    var callbacks := Collect(TableOf(s, c), order, id, |order|);
    var taken := Rest(callbacks, 0);
    var t := Extract(s, c, id);
    var due := p => Due(s, c, id, p);
    assert t.registered == s.registered && t.ran == s.ran;
    hide Extract, Collect, Covers, Due, Waits, TableOf, NotTwice, NoneLost;
    forall p, n: Ticket ensures Waits(t, p, n) <==> Waits(s, p, n) && !due(p) {
      ExtractWaits(s, c, id, p, n);
    }
    forall p, n: Ticket | Waits(s, p, n) && due(p) ensures n in taken {
      DueIsCollected(s, c, id, order, p, n);
    }
    forall n | n in taken ensures exists p :: due(p) && Waits(s, p, n) {
      var p := CollectedIsDue(s, c, id, order, n);
    }
    MovedOut(s, t, taken, due);
  }

  lemma RanOne(s: State, n: Ticket, taken: set<Ticket>)
    requires Inv(s, taken) && n in taken
    ensures Inv(s.(ran := s.ran + [n]), taken - {n})
  {
    var t := s.(ran := s.ran + [n]);
    assert forall p, n: Ticket :: Waits(t, p, n) <==> Waits(s, p, n);
    assert forall id: RequestId, c, m :: Carries(t, id, c, m) <==> Carries(s, id, c, m);
    assert forall c, m :: Has(t, c, m) == Has(s, c, m) && EntryOf(t, c, m) == EntryOf(s, c, m);
    hide Waits, Carries, EntryOf, Has;
    assert forall m :: m in t.ran <==> m in s.ran || m == n;
    forall m: Ticket | m < t.registered ensures Placed(t, m, taken - {n}) {
      assert Placed(s, m, taken);
    }
  }

  lemma {:induction false} RegisterFirstKeeps(s: State, rs: seq<Registration>, k: nat, taken: set<Ticket>)
    requires k <= |rs| && Inv(s, taken)
    ensures Inv(RegisterFirst(s, rs, k), taken)
  {
    hide Inv, Register;
    if k > 0 {
      RegisterFirstKeeps(s, rs, k - 1, taken);
      RegisterKeeps(RegisterFirst(s, rs, k - 1), rs[k - 1], taken);
    }
  }

  lemma {:induction false} RunFirstKeeps(s: State, callbacks: seq<Ticket>, effects: Effects, k: nat)
    requires k <= |callbacks| && Inv(s, Rest(callbacks, 0))
    requires forall i, j :: 0 <= i < j < |callbacks| ==> callbacks[i] != callbacks[j]
    ensures Inv(RunFirst(s, callbacks, effects, k), Rest(callbacks, k))
  {
    hide Inv, RegisterFirst;
    if k > 0 {
      RunFirstKeeps(s, callbacks, effects, k - 1);
      var u := RunFirst(s, callbacks, effects, k - 1);
      var n := callbacks[k - 1];
      RanOne(u, n, Rest(callbacks, k - 1));
      assert Rest(callbacks, k - 1) - {n} == Rest(callbacks, k);
      RegisterFirstKeeps(u.(ran := u.ran + [n]), effects(n), |effects(n)|, Rest(callbacks, k));
    }
  }

  lemma FinalizeKeeps(s: State, c: Channel, id: RequestId, order: seq<MsgId>, effects: Effects)
    requires Inv(s, {}) && id in s.outstanding && s.outstanding[id].channel == c && Covers(order, TableOf(s, c).Keys)
    ensures Inv(Finalize(s, c, id, order, effects), {})
  {
    var callbacks := Collect(TableOf(s, c), order, id, |order|);
    assert id != 0;
    forall i, j | 0 <= i < j < |callbacks| ensures callbacks[i] != callbacks[j] {
      CollectDistinct(s, c, id, order, |order|, {}, i, j);
    }
    hide Tagged, Armed, NotTwice, NoneLost, Extract, Collect, Covers;
    ExtractTagged(s, c, id);
    ExtractPlaces(s, c, id, order);
    RunFirstKeeps(Extract(s, c, id), callbacks, effects, |callbacks|);
    assert Rest(callbacks, |callbacks|) == {};
  }

  // ----- whole runs

  /** `Answered` stands for the done and the fail answer alike; the orders are those of the maps walked. */
  datatype Event =
    | Asked(registration: Registration)
    | Resolved(channels: seq<Channel>)
    | Answered(id: RequestId, order: seq<MsgId>)

  ghost predicate Enabled(s: State, e: Event) {
    match e
    case Asked(_) => true
    case Resolved(channels) => Covers([None] + channels, s.tables.Keys)
    case Answered(id, order) => id in s.outstanding && Covers(order, TableOf(s, s.outstanding[id].channel).Keys)
  }

  ghost function Step(s: State, e: Event, effects: Effects): State
    requires Enabled(s, e)
  {
    match e
    case Asked(r) => Register(s, r)
    case Resolved(channels) => ResolveAll(s, [None] + channels)
    case Answered(id, order) => Finalize(s, s.outstanding[id].channel, id, order, effects)
  }

  /** `states` is a run from the start, one state per event and the first. */
  ghost predicate IsRun(states: seq<State>, events: seq<Event>, effects: Effects) {
    && |states| == |events| + 1 && states[0] == START
    && forall i :: 0 <= i < |events| ==>
         Enabled(states[i], events[i]) && states[i + 1] == Step(states[i], events[i], effects)
  }

  lemma {:induction false} RunKeeps(states: seq<State>, events: seq<Event>, effects: Effects, k: nat)
    requires IsRun(states, events, effects) && k <= |events|
    ensures Inv(states[k], {})
  {
    if k > 0 {
      RunKeeps(states, events, effects, k - 1);
      hide Inv, Finalize, Register, ResolveAll, Covers;
      var s := states[k - 1];
      assert Enabled(s, events[k - 1]) && states[k] == Step(s, events[k - 1], effects);
      match events[k - 1]
      case Asked(r) => RegisterKeeps(s, r, {});
      case Resolved(channels) => ResolveKeeps(s, [None] + channels, {});
      case Answered(id, order) => FinalizeKeeps(s, s.outstanding[id].channel, id, order, effects);
    }
  }

  /** Two requests under way for one channel share no message, and the tagged entries are the ids carried. */
  lemma TaggedAreCarried(states: seq<State>, events: seq<Event>, effects: Effects, k: nat, id: RequestId, c: Channel,
                         m: MsgId)
    requires IsRun(states, events, effects) && k <= |events|
    ensures var s := states[k];
      && (id != 0 ==> (Carries(s, id, c, m) <==> Has(s, c, m) && EntryOf(s, c, m).requestId == id))
      && forall other: RequestId :: Carries(s, id, c, m) && Carries(s, other, c, m) ==> other == id
  {
    RunKeeps(states, events, effects, k);
    hide EntryOf, Has, Carries;
  }

  /** A registered callback has either run once and waits nowhere, or has not run and waits in one place. */
  lemma RunsOnce(states: seq<State>, events: seq<Event>, effects: Effects, k: nat, n: Ticket)
    requires IsRun(states, events, effects) && k <= |events| && n < states[k].registered
    ensures var s := states[k];
      || (Times(s.ran, n, |s.ran|) == 1 && forall p :: !Waits(s, p, n))
      || (Times(s.ran, n, |s.ran|) == 0 && exists p :: Waits(s, p, n) && forall q :: Waits(s, q, n) ==> q == p)
  {
    RunKeeps(states, events, effects, k);
    var s := states[k];
    hide Waits, Tagged, Armed;
    DistinctTimes(s.ran, n, |s.ran|);
    assert s.ran[..|s.ran|] == s.ran;
    assert Placed(s, n, {});
  }

  lemma WaitingIsCarried(s: State, p: Place, n: Ticket)
    requires Inv(s, {})
    ensures Waits(s, p, n) && !s.armed ==> Carries(s, EntryOf(s, p.channel, p.msg).requestId, p.channel, p.msg)
  {
    if Waits(s, p, n) && !s.armed {
      assert Has(s, p.channel, p.msg);
    }
  }

  /** With no call queued and no request under way, every callback ever registered has run exactly once. */
  lemma QuietMeansServed(states: seq<State>, events: seq<Event>, effects: Effects, k: nat, n: Ticket)
    requires IsRun(states, events, effects) && k <= |events|
    requires !states[k].armed && states[k].outstanding == map[] && n < states[k].registered
    ensures Times(states[k].ran, n, |states[k].ran|) == 1
  {
    var s := states[k];
    RunKeeps(states, events, effects, k);
    RunsOnce(states, events, effects, k, n);
    hide Inv, Waits, EntryOf, Times;
    forall p ensures !Waits(s, p, n) {
      WaitingIsCarried(s, p, n);
    }
  }

  /** After a resolve every waiting callback has a request under way that carries its message. */
  lemma ResolveServesAll(states: seq<State>, events: seq<Event>, effects: Effects, k: nat, p: Place, n: Ticket)
    requires IsRun(states, events, effects) && k < |events| && events[k].Resolved? && Waits(states[k + 1], p, n)
    ensures Carries(states[k + 1], EntryOf(states[k + 1], p.channel, p.msg).requestId, p.channel, p.msg)
  {
    hide Inv, Waits, EntryOf, Carries, Covers;
    var order := [None] + events[k].channels;
    assert Enabled(states[k], events[k]) && states[k + 1] == Step(states[k], events[k], effects);
    RunKeeps(states, events, effects, k + 1);
    ResolveDisarms(states[k].(armed := false), order, |order|);
    WaitingIsCarried(states[k + 1], p, n);
  }

  lemma {:induction false} ResolveDisarms(s: State, order: seq<Channel>, k: nat)
    requires k <= |order|
    ensures ResolveFirst(s, order, k).armed == s.armed
  {
    if k > 0 {
      ResolveDisarms(s, order, k - 1);
    }
  }

  /** An answer runs exactly the callbacks that waited on the ids its request carried. */
  lemma AnswerRunsItsOwn(states: seq<State>, events: seq<Event>, effects: Effects, k: nat, p: Place, n: Ticket)
    requires IsRun(states, events, effects) && k < |events| && events[k].Answered? && Waits(states[k], p, n)
    ensures n in states[k + 1].ran <==> Carries(states[k], events[k].id, p.channel, p.msg)
  {
    var s := states[k];
    var id, order := events[k].id, events[k].order;
    var c := s.outstanding[id].channel;
    RunKeeps(states, events, effects, k);
    assert Enabled(s, events[k]) && states[k + 1] == Step(s, events[k], effects);
    var callbacks := Collect(TableOf(s, c), order, id, |order|);
    RanAfter(Extract(s, c, id), callbacks, effects, |callbacks|);
    assert states[k + 1].ran == s.ran + callbacks by { assert callbacks[..|callbacks|] == callbacks; }
    assert id != 0 && n !in s.ran && forall q :: Waits(s, q, n) ==> q == p;
    hide Collect, Extract, Finalize, RunFirst;
    if n in callbacks {
      var q := CollectedIsDue(s, c, id, order, n);
      assert Has(s, c, p.msg);
    }
    if Carries(s, id, p.channel, p.msg) {
      DueIsCollected(s, c, id, order, p, n);
    }
  }

  /** And it runs nothing else, not even what its own callbacks register. */
  lemma AnswerRunsNothingElse(states: seq<State>, events: seq<Event>, effects: Effects, k: nat, n: Ticket)
    requires IsRun(states, events, effects) && k < |events| && events[k].Answered?
    requires n in states[k + 1].ran && n !in states[k].ran
    ensures exists p :: Waits(states[k], p, n) && Carries(states[k], events[k].id, p.channel, p.msg)
  {
    var s := states[k];
    var id, order := events[k].id, events[k].order;
    var c := s.outstanding[id].channel;
    RunKeeps(states, events, effects, k);
    assert Enabled(s, events[k]) && states[k + 1] == Step(s, events[k], effects);
    var callbacks := Collect(TableOf(s, c), order, id, |order|);
    RanAfter(Extract(s, c, id), callbacks, effects, |callbacks|);
    assert callbacks[..|callbacks|] == callbacks && id != 0;
    hide Collect, Extract, Finalize, RunFirst;
    var p := CollectedIsDue(s, c, id, order, n);
    assert Has(s, c, p.msg);
  }

  lemma {:induction false} RanAfter(s: State, callbacks: seq<Ticket>, effects: Effects, k: nat)
    requires k <= |callbacks|
    ensures RunFirst(s, callbacks, effects, k).ran == s.ran + callbacks[..k]
  {
    if k > 0 {
      RanAfter(s, callbacks, effects, k - 1);
      var u := RunFirst(s, callbacks, effects, k - 1);
      var n := callbacks[k - 1];
      RegisterRunsNone(u.(ran := u.ran + [n]), effects(n), |effects(n)|);
      assert callbacks[..k] == callbacks[..k - 1] + [n];
    }
  }

  lemma {:induction false} RegisterRunsNone(s: State, rs: seq<Registration>, k: nat)
    requires k <= |rs|
    ensures RegisterFirst(s, rs, k).ran == s.ran
  {
    if k > 0 {
      RegisterRunsNone(s, rs, k - 1);
    }
  }
}
