/**
 * The file-reference coalescer of `apiwrap.cpp`: the first caller for an origin sends a request, later
 * callers join its batch, and the answer runs the whole batch.
 */
module FileReferences {
  import opened Tally
  import opened Text

  type Origin = nat
  type RequestId = nat
  /** Callers are numbered in the order they ask. */
  type Ticket = nat
  /** What a done answer carries; a fail answer carries nothing. */
  type Data = nat

  /** A caller's own handler, or the extra step a caller brings along for the request as a whole. */
  datatype Handler = Caller(n: Ticket) | Additional(n: Ticket)

  datatype Ask = Ask(origin: Origin, extra: bool)

  /** What running a handler asks for in turn. */
  type Effects = Handler -> seq<Ask>

  datatype Outgoing = Outgoing(origin: Origin, opener: Ticket, extra: bool)

  /** `extras` are the callers whose extra step was kept; `ran` and `told` say who was run with what. */
  datatype State = State(
    handlers: map<Origin, seq<Handler>>, nextId: RequestId, outstanding: map<RequestId, Outgoing>,
    registered: Ticket, extras: set<Ticket>, ran: seq<Handler>, told: seq<Option<Data>>)

  const START: State := State(map[], 1, map[], 0, {}, [], [])

  // ----- what each handler does

  function Attach(s: State, a: Ask): State {
    var opens := a.origin !in s.handlers;
    var batch := (if opens then [] else s.handlers[a.origin]) + [Caller(s.registered)];
    var more := a.extra && |batch| == 1;
    s.(handlers := s.handlers[a.origin := if more then batch + [Additional(s.registered)] else batch],
       nextId := if opens then s.nextId + 1 else s.nextId,
       outstanding :=
         if opens then s.outstanding[s.nextId := Outgoing(a.origin, s.registered, a.extra)] else s.outstanding,
       registered := s.registered + 1,
       extras := if more then s.extras + {s.registered} else s.extras)
  }

  function AttachFirst(s: State, asks: seq<Ask>, k: nat): State
    requires k <= |asks|
  {
    if k == 0 then s else Attach(AttachFirst(s, asks, k - 1), asks[k - 1])
  }

  function Ran(s: State, h: Handler, answer: Option<Data>): State {
    s.(ran := s.ran + [h], told := s.told + [answer])
  }

  function RunOne(s: State, h: Handler, answer: Option<Data>, effects: Effects): State {
    AttachFirst(Ran(s, h, answer), effects(h), |effects(h)|)
  }

  function RunFirst(s: State, batch: seq<Handler>, answer: Option<Data>, effects: Effects, k: nat): State
    requires k <= |batch|
  {
    if k == 0 then s else RunOne(RunFirst(s, batch, answer, effects, k - 1), batch[k - 1], answer, effects)
  }

  function TakeOut(s: State, id: RequestId): State
    requires id in s.outstanding
  {
    s.(outstanding := s.outstanding - {id}, handlers := s.handlers - {s.outstanding[id].origin})
  }

  function Answer(s: State, id: RequestId, answer: Option<Data>, effects: Effects): State
    requires id in s.outstanding && s.outstanding[id].origin in s.handlers
  {
    var batch := s.handlers[s.outstanding[id].origin];
    RunFirst(TakeOut(s, id), batch, answer, effects, |batch|)
  }

  // ----- the invariant

  predicate Fetches(s: State, id: RequestId, o: Origin) {
    id in s.outstanding && s.outstanding[id].origin == o
  }

  /** The batch of a request: its opener, the opener's extra step if there is one, then other callers. */
  predicate Shape(batch: seq<Handler>, out: Outgoing) {
    && |batch| > 0 && batch[0] == Caller(out.opener)
    && (out.extra ==> |batch| > 1 && batch[1] == Additional(out.opener))
    && forall i :: 1 <= i < |batch| && batch[i].Additional? ==> i == 1 && out.extra
  }

  /** Requests under way and origins with a batch are in one-to-one correspondence. */
  ghost predicate Matched(s: State) {
    && (forall id :: id in s.outstanding ==> id < s.nextId)
    && (forall id, o: Origin :: Fetches(s, id, o) ==> o in s.handlers && Shape(s.handlers[o], s.outstanding[id]))
    && (forall id, other, o: Origin :: Fetches(s, id, o) && Fetches(s, other, o) ==> id == other)
    && (forall o :: o in s.handlers ==> exists id :: Fetches(s, id, o))
  }

  /** Handlers that were handed over. */
  predicate Issued(s: State, h: Handler) {
    if h.Caller? then h.n < s.registered else h.n in s.extras
  }

  datatype Place = Place(origin: Origin, at: nat)

  predicate Waits(s: State, p: Place, h: Handler) {
    p.origin in s.handlers && p.at < |s.handlers[p.origin]| && s.handlers[p.origin][p.at] == h
  }

  ghost predicate NotTwice(s: State, taken: set<Handler>) {
    && (forall n :: n in s.extras ==> n < s.registered)
    && (forall p, h :: Waits(s, p, h) ==> Issued(s, h) && h !in taken && h !in s.ran)
    && (forall p, q, h :: Waits(s, p, h) && Waits(s, q, h) ==> p == q)
    && (forall h :: h in taken ==> Issued(s, h) && h !in s.ran)
    && (forall h :: h in s.ran ==> Issued(s, h))
    && (forall i, j :: 0 <= i < j < |s.ran| ==> s.ran[i] != s.ran[j])
    && |s.told| == |s.ran|
  }

  ghost predicate Placed(s: State, h: Handler, taken: set<Handler>) {
    h in taken || h in s.ran || exists p :: Waits(s, p, h)
  }

  ghost predicate NoneLost(s: State, taken: set<Handler>) {
    forall h :: Issued(s, h) ==> Placed(s, h, taken)
  }

  ghost predicate Inv(s: State, taken: set<Handler>) {
    Matched(s) && NotTwice(s, taken) && NoneLost(s, taken)
  }

  // ----- the object itself

  class Coalescer {
    var fileReferenceHandlers: map<Origin, seq<Handler>>
    var nextId: RequestId
    var registered: Ticket
    const effects: Effects
    ghost var outstanding: map<RequestId, Outgoing>
    ghost var extras: set<Ticket>
    ghost var ran: seq<Handler>
    ghost var told: seq<Option<Data>>

    ghost function Now(): State reads this {
      State(fileReferenceHandlers, nextId, outstanding, registered, extras, ran, told)
    }

    constructor (effects: Effects)
      ensures Now() == START && this.effects == effects
    {
      this.effects := effects;
      fileReferenceHandlers, nextId, registered := map[], 1, 0;
      outstanding, extras, ran, told := map[], {}, [], [];
    }

    /** Sends only when the origin has no batch yet. */
    method RequestFileReference(origin: Origin, ghost extra: bool)
      modifies this
      ensures Now() == Attach(old(Now()), Ask(origin, false)).(outstanding :=
        if origin in old(fileReferenceHandlers) then old(outstanding)
        else old(outstanding)[old(nextId) := Outgoing(origin, old(registered), extra)])
    {
      var handler := Caller(registered);
      registered := registered + 1;
      if origin in fileReferenceHandlers {
        fileReferenceHandlers := fileReferenceHandlers[origin := fileReferenceHandlers[origin] + [handler]];
        return;
      }
      var handlers: seq<Handler> := [];
      handlers := handlers + [handler];
      fileReferenceHandlers := fileReferenceHandlers[origin := handlers];
      outstanding := outstanding[nextId := Outgoing(origin, handler.n, extra)];
      nextId := nextId + 1;
    }

    method RefreshFileReference(a: Ask)
      modifies this
      ensures Now() == Attach(old(Now()), a)
    {
      var caller := registered;
      RequestFileReference(a.origin, a.extra);
      if a.extra {
        assert a.origin in fileReferenceHandlers;
        if |fileReferenceHandlers[a.origin]| == 1 {
          var batch := fileReferenceHandlers[a.origin] + [Additional(caller)];
          fileReferenceHandlers := fileReferenceHandlers[a.origin := batch];
          extras := extras + {caller};
        }
      }
    }

    /** The done answer (with data) and the fail answer (with none). */
    method FinishFileReference(ghost id: RequestId, origin: Origin, answer: Option<Data>)
      requires Inv(Now(), {}) && Fetches(Now(), id, origin)
      modifies this
      ensures Now() == Answer(old(Now()), id, answer, effects)
    {
      hide NotTwice, NoneLost, RunOne;
      assert origin in fileReferenceHandlers;
      var batch := fileReferenceHandlers[origin];
      fileReferenceHandlers := fileReferenceHandlers - {origin};
      outstanding := outstanding - {id};
      ghost var start := Now();
      for k := 0 to |batch|
        invariant Now() == RunFirst(start, batch, answer, effects, k)
      {
        RunHandler(batch[k], answer);
      }
    }

    method RunHandler(h: Handler, ghost answer: Option<Data>)
      modifies this
      ensures Now() == RunOne(old(Now()), h, answer, effects)
    {
      hide Attach;
      ran, told := ran + [h], told + [answer];
      ghost var start := Now();
      var asks := effects(h);
      for k := 0 to |asks|
        invariant Now() == AttachFirst(start, asks, k)
      {
        RefreshFileReference(asks[k]);
      }
    }
  }

  // ----- attaching keeps the invariant

  lemma AttachMatched(s: State, a: Ask)
    requires Matched(s)
    ensures Matched(Attach(s, a))
  {
    var t := Attach(s, a);
    assert s.nextId !in s.outstanding;
    assert forall o :: o in t.handlers <==> o in s.handlers || o == a.origin;
    if a.origin in s.handlers {
      var id :| Fetches(s, id, a.origin);
      assert Shape(s.handlers[a.origin], s.outstanding[id]);
      assert t.outstanding == s.outstanding;
      assert forall i, o: Origin :: Fetches(t, i, o) <==> Fetches(s, i, o);
      forall o | o in t.handlers ensures exists i :: Fetches(t, i, o) {
        assert exists i :: Fetches(s, i, o);
      }
    } else {
      assert forall i, o: Origin :: Fetches(t, i, o) <==> Fetches(s, i, o) || (i == s.nextId && o == a.origin);
      assert Shape(t.handlers[a.origin], t.outstanding[s.nextId]);
      assert Fetches(t, s.nextId, a.origin);
      forall o | o in t.handlers && o != a.origin ensures exists i :: Fetches(t, i, o) {
        var i :| Fetches(s, i, o);
        assert Fetches(t, i, o);
      }
    }
  }

  /** How many handlers wait for `o`. */
  function Size(s: State, o: Origin): nat {
    if o in s.handlers then |s.handlers[o]| else 0
  }

  lemma AttachWaits(s: State, a: Ask, p: Place, h: Handler)
    ensures Waits(Attach(s, a), p, h) <==>
      || Waits(s, p, h)
      || (p == Place(a.origin, Size(s, a.origin)) && h == Caller(s.registered))
      || (a.extra && Size(s, a.origin) == 0 && p == Place(a.origin, 1) && h == Additional(s.registered))
  {
  }

  lemma AttachPlaces(s: State, a: Ask, taken: set<Handler>)
    requires NotTwice(s, taken) && NoneLost(s, taken)
    ensures NotTwice(Attach(s, a), taken) && NoneLost(Attach(s, a), taken)
  {
    var t := Attach(s, a);
    var size := Size(s, a.origin);
    var more := a.extra && size == 0;
    assert t.ran == s.ran && t.told == s.told && t.registered == s.registered + 1;
    assert t.extras == if more then s.extras + {s.registered} else s.extras;
    forall p, h ensures Waits(t, p, h) <==>
      || Waits(s, p, h)
      || (p == Place(a.origin, size) && h == Caller(s.registered))
      || (more && p == Place(a.origin, 1) && h == Additional(s.registered))
    {
      AttachWaits(s, a, p, h);
    }
    hide Attach, Waits, Size;
    forall h | Issued(t, h) ensures Placed(t, h, taken) {
      if Issued(s, h) {
        assert Placed(s, h, taken);
      } else if h.Caller? {
        assert Waits(t, Place(a.origin, size), h);
      } else {
        assert Waits(t, Place(a.origin, 1), h);
      }
    }
  }

  lemma {:induction false} AttachFirstKeeps(s: State, asks: seq<Ask>, k: nat, taken: set<Handler>)
    requires k <= |asks| && Inv(s, taken)
    ensures Inv(AttachFirst(s, asks, k), taken)
  {
    hide Matched, NotTwice, NoneLost, Attach;
    if k > 0 {
      AttachFirstKeeps(s, asks, k - 1, taken);
      AttachMatched(AttachFirst(s, asks, k - 1), asks[k - 1]);
      AttachPlaces(AttachFirst(s, asks, k - 1), asks[k - 1], taken);
    }
  }

  // ----- an answer keeps it

  /** The handlers of a batch from place `k` on. */
  function Rest(batch: seq<Handler>, k: nat): set<Handler>
    requires k <= |batch|
  {
    set i | k <= i < |batch| :: batch[i]
  }

  lemma TakeOutKeeps(s: State, id: RequestId)
    requires Inv(s, {}) && id in s.outstanding
    ensures var batch := s.handlers[s.outstanding[id].origin];
      && Inv(TakeOut(s, id), Rest(batch, 0))
      && forall i, j :: 0 <= i < j < |batch| ==> batch[i] != batch[j]
  {
    var t := TakeOut(s, id);
    var o := s.outstanding[id].origin;
    assert Fetches(s, id, o);
    var batch := s.handlers[o];
    TakeOutMatched(s, id);
    forall p, h ensures Waits(t, p, h) <==> Waits(s, p, h) && p.origin != o { }
    forall i | 0 <= i < |batch| ensures Waits(s, Place(o, i), batch[i]) { }
    forall p, h | Waits(s, p, h) && p.origin == o ensures h in Rest(batch, 0) { assert h == batch[p.at]; }
    hide Waits, Matched;
    forall h | h in Rest(batch, 0) ensures exists p: Place :: p.origin == o && Waits(s, p, h) {
      var i :| 0 <= i < |batch| && batch[i] == h;
      assert Waits(s, Place(o, i), h);
    }
    hide Rest;
    forall h | Issued(t, h) ensures Placed(t, h, Rest(batch, 0)) {
      assert Placed(s, h, {});
    }
  }

  lemma TakeOutMatched(s: State, id: RequestId)
    requires Matched(s) && id in s.outstanding
    ensures Matched(TakeOut(s, id))
  {
    var t := TakeOut(s, id);
    var o := s.outstanding[id].origin;
    assert Fetches(s, id, o);
    assert forall i, x: Origin :: Fetches(t, i, x) <==> Fetches(s, i, x) && i != id;
    forall x | x in t.handlers ensures exists i :: Fetches(t, i, x) {
      var i :| Fetches(s, i, x);
      assert Fetches(t, i, x);
    }
  }

  lemma RanKeeps(s: State, h: Handler, answer: Option<Data>, taken: set<Handler>)
    requires Inv(s, taken) && h in taken
    ensures Inv(Ran(s, h, answer), taken - {h})
  {
    var t := Ran(s, h, answer);
    assert forall p, x :: Waits(t, p, x) <==> Waits(s, p, x);
    assert forall i, o: Origin :: Fetches(t, i, o) <==> Fetches(s, i, o);
    assert forall x :: Issued(t, x) <==> Issued(s, x);
    assert Matched(t) by {
      forall o | o in t.handlers ensures exists i :: Fetches(t, i, o) {
        assert exists i :: Fetches(s, i, o);
      }
    }
    hide Waits, Fetches, Issued, Matched;
    assert forall x :: x in t.ran <==> x in s.ran || x == h;
    forall x | Issued(t, x) ensures Placed(t, x, taken - {h}) {
      assert Placed(s, x, taken);
    }
  }

  lemma {:induction false} RunFirstKeeps(s: State, batch: seq<Handler>, answer: Option<Data>, effects: Effects, k: nat)
    requires k <= |batch| && Inv(s, Rest(batch, 0))
    requires forall i, j :: 0 <= i < j < |batch| ==> batch[i] != batch[j]
    ensures Inv(RunFirst(s, batch, answer, effects, k), Rest(batch, k))
  {
    hide Inv, AttachFirst, Ran;
    if k > 0 {
      RunFirstKeeps(s, batch, answer, effects, k - 1);
      var u := RunFirst(s, batch, answer, effects, k - 1);
      var h := batch[k - 1];
      RanKeeps(u, h, answer, Rest(batch, k - 1));
      assert Rest(batch, k - 1) - {h} == Rest(batch, k);
      AttachFirstKeeps(Ran(u, h, answer), effects(h), |effects(h)|, Rest(batch, k));
    }
  }

  // ----- whole runs

  datatype Event = Asked(ask: Ask) | Answered(id: RequestId, answer: Option<Data>)

  /** An answer may only come for a request under way, and then the batch it looks for is there. */
  ghost predicate Enabled(s: State, e: Event) {
    e.Answered? ==> e.id in s.outstanding && s.outstanding[e.id].origin in s.handlers
  }

  ghost function Step(s: State, e: Event, effects: Effects): State
    requires Enabled(s, e)
  {
    match e
    case Asked(a) => Attach(s, a)
    case Answered(id, answer) => Answer(s, id, answer, effects)
  }

  lemma StepKeeps(s: State, e: Event, effects: Effects)
    requires Inv(s, {}) && (e.Answered? ==> e.id in s.outstanding)
    ensures Enabled(s, e) && Inv(Step(s, e, effects), {})
  {
    match e
    case Asked(a) =>
      hide Matched, NotTwice, NoneLost, Attach;
      AttachMatched(s, a);
      AttachPlaces(s, a, {});
    case Answered(id, answer) =>
      assert Fetches(s, id, s.outstanding[id].origin);
      var batch := s.handlers[s.outstanding[id].origin];
      hide Inv, TakeOut, RunFirst;
      TakeOutKeeps(s, id);
      RunFirstKeeps(TakeOut(s, id), batch, answer, effects, |batch|);
      assert Rest(batch, |batch|) == {};
  }

  ghost predicate IsRun(states: seq<State>, events: seq<Event>, effects: Effects) {
    && |states| == |events| + 1 && states[0] == START
    && forall i :: 0 <= i < |events| ==>
         && (events[i].Answered? ==> events[i].id in states[i].outstanding)
         && (Enabled(states[i], events[i]) ==> states[i + 1] == Step(states[i], events[i], effects))
  }

  lemma {:induction false} RunKeeps(states: seq<State>, events: seq<Event>, effects: Effects, k: nat)
    requires IsRun(states, events, effects) && k <= |events|
    ensures Inv(states[k], {})
  {
    if k > 0 {
      RunKeeps(states, events, effects, k - 1);
      hide Inv, Step;
      StepKeeps(states[k - 1], events[k - 1], effects);
    }
  }

  /** In every run the lookup at an answer finds its batch, so neither `Assert` can fire. */
  lemma AnswersFindTheirBatch(states: seq<State>, events: seq<Event>, effects: Effects, k: nat)
    requires IsRun(states, events, effects) && k < |events|
    ensures Enabled(states[k], events[k]) && states[k + 1] == Step(states[k], events[k], effects)
  {
    RunKeeps(states, events, effects, k);
    hide Inv, Step;
    StepKeeps(states[k], events[k], effects);
  }

  /** An origin has a batch exactly when one request, and only one, is under way for it. */
  lemma OneRequestPerOrigin(states: seq<State>, events: seq<Event>, effects: Effects, k: nat, o: Origin)
    requires IsRun(states, events, effects) && k <= |events|
    ensures o in states[k].handlers
      <==> exists id :: Fetches(states[k], id, o) && forall other :: Fetches(states[k], other, o) ==> other == id
  {
    RunKeeps(states, events, effects, k);
    hide Fetches;
  }

  /** Every handler handed over has either run once and waits nowhere, or has not run and waits in one batch. */
  lemma RunsOnce(states: seq<State>, events: seq<Event>, effects: Effects, k: nat, h: Handler)
    requires IsRun(states, events, effects) && k <= |events| && Issued(states[k], h)
    ensures var s := states[k];
      || (Times(s.ran, h, |s.ran|) == 1 && forall p :: !Waits(s, p, h))
      || (Times(s.ran, h, |s.ran|) == 0 && exists p :: Waits(s, p, h) && forall q :: Waits(s, q, h) ==> q == p)
  {
    RunKeeps(states, events, effects, k);
    var s := states[k];
    hide Waits, Matched;
    DistinctTimes(s.ran, h, |s.ran|);
    assert s.ran[..|s.ran|] == s.ran;
    assert Placed(s, h, {});
  }

  /** With nothing under way everyone who ever asked has been run exactly once. */
  lemma QuietMeansServed(states: seq<State>, events: seq<Event>, effects: Effects, k: nat, h: Handler)
    requires IsRun(states, events, effects) && k <= |events| && states[k].outstanding == map[] && Issued(states[k], h)
    ensures Times(states[k].ran, h, |states[k].ran|) == 1
  {
    var s := states[k];
    RunKeeps(states, events, effects, k);
    RunsOnce(states, events, effects, k, h);
    forall p ensures !Waits(s, p, h) {
      assert p.origin in s.handlers ==> exists id :: Fetches(s, id, p.origin);
    }
  }

  lemma {:induction false} AttachFirstRunsNone(s: State, asks: seq<Ask>, k: nat)
    requires k <= |asks|
    ensures AttachFirst(s, asks, k).ran == s.ran && AttachFirst(s, asks, k).told == s.told
  {
    if k > 0 {
      AttachFirstRunsNone(s, asks, k - 1);
    }
  }

  lemma {:induction false} RunFirstRan(s: State, batch: seq<Handler>, answer: Option<Data>, effects: Effects, k: nat)
    requires k <= |batch|
    ensures RunFirst(s, batch, answer, effects, k).ran == s.ran + batch[..k]
    ensures RunFirst(s, batch, answer, effects, k).told == s.told + seq(k, _ => answer)
  {
    if k > 0 {
      RunFirstRan(s, batch, answer, effects, k - 1);
      var u := RunFirst(s, batch, answer, effects, k - 1);
      var h := batch[k - 1];
      AttachFirstRunsNone(Ran(u, h, answer), effects(h), |effects(h)|);
      assert batch[..k] == batch[..k - 1] + [h];
      assert seq(k, _ => answer) == seq(k - 1, _ => answer) + [answer];
    }
  }

  function Extras(batch: seq<Handler>, k: nat): nat
    requires k <= |batch|
  {
    if k == 0 then 0 else Extras(batch, k - 1) + if batch[k - 1].Additional? then 1 else 0
  }

  lemma {:induction false} ShapeExtras(batch: seq<Handler>, out: Outgoing, k: nat)
    requires Shape(batch, out) && k <= |batch|
    ensures Extras(batch, k) == if out.extra && k > 1 then 1 else 0
  {
    if k > 0 {
      ShapeExtras(batch, out, k - 1);
    }
  }

  /** An answer runs its batch in order, all with that answer and nothing else, and the batch holds one extra
      step when the caller who caused the request brought one, none otherwise. */
  lemma BatchRunsTogether(states: seq<State>, events: seq<Event>, effects: Effects, k: nat)
    requires IsRun(states, events, effects) && k < |events| && events[k].Answered?
    ensures Enabled(states[k], events[k])
    ensures var s, out := states[k], states[k].outstanding[events[k].id];
      var batch := s.handlers[out.origin];
      && states[k + 1].ran == s.ran + batch
      && states[k + 1].told == s.told + seq(|batch|, _ => events[k].answer)
      && |batch| > 0 && batch[0] == Caller(out.opener)
      && Extras(batch, |batch|) == if out.extra then 1 else 0
  {
    AnswersFindTheirBatch(states, events, effects, k);
    RunKeeps(states, events, effects, k);
    var s, id := states[k], events[k].id;
    var out := s.outstanding[id];
    var batch := s.handlers[out.origin];
    assert Fetches(s, id, out.origin);
    RunFirstRan(TakeOut(s, id), batch, events[k].answer, effects, |batch|);
    assert batch[..|batch|] == batch;
    ShapeExtras(batch, out, |batch|);
  }

  /** In every run a caller joins the batch of its own origin, and one who finds none opens it with the one request. */
  lemma AskedJoins(states: seq<State>, events: seq<Event>, effects: Effects, k: nat)
    requires IsRun(states, events, effects) && k < |events| && events[k].Asked?
    ensures var s, t, o := states[k], states[k + 1], events[k].ask.origin;
      && t.registered == s.registered + 1
      && Waits(t, Place(o, if o in s.handlers then |s.handlers[o]| else 0), Caller(s.registered))
      && (if o in s.handlers then t.outstanding == s.outstanding
          else t.outstanding == s.outstanding[s.nextId := Outgoing(o, s.registered, events[k].ask.extra)])
      && forall p: Place, h :: p.origin != o ==> (Waits(t, p, h) <==> Waits(s, p, h))
  {
    assert Enabled(states[k], events[k]) && states[k + 1] == Step(states[k], events[k], effects);
  }
}
