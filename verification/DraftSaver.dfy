/** The delayed cloud-draft saver of `apiwrap.cpp`, for plain drafts that are not skipped, outside quitting. */
module DraftSaver {
  import opened MapOrder

  type Thread = nat
  type RequestId = nat

  /** A local draft; a null one is saved as an empty draft. */
  datatype Draft = Null | Plain(text: string)

  datatype SaveState = SaveState(requestId: RequestId, changedWhileSaving: bool)

  /** `saves` and `timer` belong to the saver, `local` and `cloudRequest` (the request id kept in a cloud
      draft, 0 when none) to the history; `live`, `inFlight` and `lastSent` record the outside world. */
  datatype State = State(
    saves: map<Thread, SaveState>, timer: bool, cloudRequest: map<Thread, RequestId>, nextId: RequestId,
    local: map<Thread, Draft>, live: set<Thread>,
    inFlight: map<RequestId, Thread>, lastSent: map<Thread, Draft>)

  const START: State := State(map[], false, map[], 1, map[], {}, map[], map[])

  datatype Event =
    | Edit(thread: Thread, draft: Draft)
    | Tick(order: seq<Thread>)
    | Done(id: RequestId)
    | Fail(id: RequestId)
    | Die(thread: Thread)

  // ----- what each handler does

  /** `saveDraftToCloudDelayed` */
  function Delayed(s: State, t: Thread): State {
    var entry :=
      if t !in s.saves then SaveState(0, false)
      else if s.saves[t].requestId != 0 then s.saves[t].(changedWhileSaving := true)
      else s.saves[t];
    s.(saves := s.saves[t := entry], timer := true)
  }

  /** No local draft is a null one. */
  function LocalOf(s: State, t: Thread): Draft {
    if t in s.local then s.local[t] else Null
  }

  /** `createCloudDraft` and `savePreparedDraftToCloud`: a fresh cloud draft forgets the request of the old
      one, otherwise that request is cancelled. */
  function Send(s: State, t: Thread): State {
    var previous := if LocalOf(s, t).Null? || t !in s.cloudRequest then 0 else s.cloudRequest[t];
    var flying := if previous != 0 then s.inFlight - {previous} else s.inFlight;
    s.(cloudRequest := s.cloudRequest[t := s.nextId],
       inFlight := flying[s.nextId := t],
       lastSent := s.lastSent[t := LocalOf(s, t)],
       saves := s.saves[t := SaveState(s.nextId, false)],
       nextId := s.nextId + 1)
  }

  /** One entry of the `saveDraftsToCloud` loop. */
  function SaveOne(s: State, t: Thread): State {
    if t !in s.saves then s
    else if t !in s.live then s.(saves := s.saves - {t})
    else if s.saves[t].requestId != 0 then s
    else Send(s, t)
  }

  function SaveAll(s: State, order: seq<Thread>): State {
    if order == [] then s else SaveOne(SaveAll(s, order[..|order| - 1]), order[|order| - 1])
  }

  /** The common end of the done and fail handlers. */
  function Finish(s: State, t: Thread, id: RequestId): State {
    if t in s.saves && s.saves[t].requestId == id then
      var erased := s.(saves := s.saves - {t});
      if s.saves[t].changedWhileSaving && t in s.live then Delayed(erased, t) else erased
    else s
  }

  /** The state of the world once the answer arrived and the cloud draft forgot the request. */
  function Landed(s: State, id: RequestId, failed: bool): State
    requires id in s.inFlight
  {
    var t := s.inFlight[id];
    var cloud :=
      if t in s.cloudRequest && s.cloudRequest[t] == id
      then (if failed then s.cloudRequest - {t} else s.cloudRequest[t := 0])
      else s.cloudRequest;
    s.(inFlight := s.inFlight - {id}, cloudRequest := cloud)
  }

  function Answered(s: State, id: RequestId, failed: bool): State
    requires id in s.inFlight
  {
    Finish(Landed(s, id, failed), s.inFlight[id], id)
  }

  ghost predicate Enabled(s: State, ev: Event) {
    match ev
    case Edit(_, _) => true
    case Tick(order) => s.timer && Covers(order, s.saves.Keys)
    case Done(id) => id in s.inFlight
    case Fail(id) => id in s.inFlight
    case Die(_) => true
  }

  /** Threads come to life with their first edit; a dead thread is never edited again. */
  ghost function Step(s: State, ev: Event): State
    requires Enabled(s, ev)
  {
    match ev
    case Edit(t, draft) =>
      if t in s.local && t !in s.live then s
      else Delayed(s.(local := s.local[t := draft], live := s.live + {t}), t)
    case Tick(order) => SaveAll(s.(timer := false), order)
    case Done(id) => Answered(s, id, false)
    case Fail(id) => Answered(s, id, true)
    case Die(t) => s.(live := s.live - {t})
  }

  class Saver {
    var draftSaves: map<Thread, SaveState>
    var timerActive: bool
    var cloudRequest: map<Thread, RequestId>
    var nextId: RequestId
    var local: map<Thread, Draft>
    var live: set<Thread>
    ghost var inFlight: map<RequestId, Thread>
    ghost var lastSent: map<Thread, Draft>

    ghost function Now(): State reads this {
      State(draftSaves, timerActive, cloudRequest, nextId, local, live, inFlight, lastSent)
    }

    constructor ()
      ensures Now() == START
    {
      draftSaves, timerActive, cloudRequest, nextId := map[], false, map[], 1;
      local, live, inFlight, lastSent := map[], {}, map[], map[];
    }

    method SaveDraftToCloudDelayed(t: Thread)
      modifies this
      ensures Now() == Delayed(old(Now()), t)
    {
      var inserted := t !in draftSaves;
      if inserted { draftSaves := draftSaves[t := SaveState(0, false)]; }
      if !inserted && draftSaves[t].requestId != 0 {
        draftSaves := draftSaves[t := draftSaves[t].(changedWhileSaving := true)];
      }
      if !timerActive { timerActive := true; }
    }

    method EditDraft(t: Thread, draft: Draft)
      requires t in local ==> t in live
      modifies this
      ensures Now() == Step(old(Now()), Edit(t, draft))
    {
      local := local[t := draft];
      live := live + {t};
      SaveDraftToCloudDelayed(t);
    }

    method SavePreparedDraftToCloud(t: Thread) returns (requestId: RequestId)
      modifies this
      ensures Now() == Send(old(Now()), t).(saves := old(draftSaves))
      ensures requestId == old(nextId)
    {
      var draft := if t in local then local[t] else Null;
      if draft.Null? { cloudRequest := cloudRequest[t := 0]; }
      if t in cloudRequest && cloudRequest[t] != 0 {
        inFlight := inFlight - {cloudRequest[t]};
      }
      requestId := nextId;
      nextId := nextId + 1;
      inFlight := inFlight[requestId := t];
      lastSent := lastSent[t := draft];
      cloudRequest := cloudRequest[t := requestId];
    }

    /** The timer fires: it is no longer active while the loop runs. */
    method SaveDraftsToCloud() returns (ghost order: seq<Thread>)
      modifies this
      ensures Covers(order, old(draftSaves).Keys)
      ensures Now() == SaveAll(old(Now()).(timer := false), order)
    {
      hide SaveOne;
      timerActive := false;
      ghost var start := Now();
      var todo := draftSaves.Keys;
      order := [];
      while todo != {}
        invariant Now() == SaveAll(start, order)
        invariant Covers(order, start.saves.Keys - todo) && todo <= start.saves.Keys
        invariant todo <= draftSaves.Keys
        decreases todo
      {
        var t :| t in todo;
        todo := todo - {t};
        SaveEntry(t);
        SaveAllMore(start, order, t);
        order := order + [t];
      }
    }

    method SaveEntry(t: Thread)
      requires t in draftSaves
      modifies this
      ensures Now() == SaveOne(old(Now()), t)
      ensures draftSaves.Keys >= old(draftSaves.Keys) - {t}
    {
      if t !in live {
        draftSaves := draftSaves - {t};
      } else if draftSaves[t].requestId == 0 {
        var requestId := SavePreparedDraftToCloud(t);
        draftSaves := draftSaves[t := SaveState(requestId, false)];
      }
    }

    method Answer(id: RequestId, t: Thread, failed: bool)
      requires id in inFlight && inFlight[id] == t
      modifies this
      ensures Now() == Answered(old(Now()), id, failed)
    {
      inFlight := inFlight - {id};
      if t in cloudRequest && cloudRequest[t] == id {
        cloudRequest := if failed then cloudRequest - {t} else cloudRequest[t := 0];
      }
      if t in draftSaves && draftSaves[t].requestId == id {
        var changed := draftSaves[t].changedWhileSaving;
        draftSaves := draftSaves - {t};
        if changed && t in live {
          SaveDraftToCloudDelayed(t);
        }
      }
    }
  }

  lemma SaveAllMore(s: State, order: seq<Thread>, t: Thread)
    ensures SaveAll(s, order + [t]) == SaveOne(SaveAll(s, order), t)
  {
    hide SaveOne;
    assert (order + [t])[..|order|] == order;
  }

  // ----- what every run keeps

  ghost predicate Sent(s: State, t: Thread) {
    t in s.lastSent && s.lastSent[t] == LocalOf(s, t)
  }

  /** Queued for the armed timer, or for a loop that still has to visit `visiting`. */
  ghost predicate Queued(s: State, visiting: set<Thread>, t: Thread) {
    t in s.saves && s.saves[t].requestId == 0 && (s.timer || t in visiting)
  }

  ghost predicate ChangedBehind(s: State, t: Thread) {
    t in s.saves && s.saves[t].requestId != 0 && s.saves[t].changedWhileSaving
  }

  ghost predicate OneInFlight(s: State) {
    && 0 < s.nextId
    && (forall id :: id in s.inFlight ==> 0 < id < s.nextId)
    && (forall id :: id in s.inFlight && s.inFlight[id] in s.live ==>
          s.inFlight[id] in s.saves && s.saves[s.inFlight[id]].requestId == id)
    && (forall t :: t in s.saves && t in s.live && s.saves[t].requestId != 0 ==>
          && s.saves[t].requestId in s.inFlight && s.inFlight[s.saves[t].requestId] == t
          && t in s.cloudRequest && s.cloudRequest[t] == s.saves[t].requestId)
    && (forall t :: t in s.cloudRequest && t in s.live && s.cloudRequest[t] != 0 ==>
          t in s.saves && s.saves[t].requestId == s.cloudRequest[t])
    && (forall t :: t in s.live || t in s.saves || t in s.cloudRequest ==> t in s.local)
    && (forall id :: id in s.inFlight ==> s.inFlight[id] in s.local)
    && (forall t :: t in s.saves && s.saves[t].changedWhileSaving ==> s.saves[t].requestId != 0)
  }

  ghost predicate NoEditLost(s: State, visiting: set<Thread>) {
    && (forall t :: t in s.live ==> Sent(s, t) || Queued(s, visiting, t) || ChangedBehind(s, t))
    && (forall t :: t in s.live && t in s.saves && s.saves[t].requestId == 0 ==> Queued(s, visiting, t))
  }

  ghost predicate Inv(s: State) {
    OneInFlight(s) && NoEditLost(s, {})
  }

  lemma DelayedKeeps(s: State, t: Thread, visiting: set<Thread>)
    requires OneInFlight(s) && t in s.local
    requires forall u :: u in s.live && u != t ==> Sent(s, u) || Queued(s, visiting, u) || ChangedBehind(s, u)
    requires forall u :: u in s.live && u != t && u in s.saves && s.saves[u].requestId == 0 ==> Queued(s, visiting, u)
    ensures OneInFlight(Delayed(s, t)) && NoEditLost(Delayed(s, t), visiting)
  {
    var s' := Delayed(s, t);
    forall u | u in s.live && u != t ensures Sent(s', u) || Queued(s', visiting, u) || ChangedBehind(s', u) {
      assert Sent(s, u) || Queued(s, visiting, u) || ChangedBehind(s, u);
    }
  }

  lemma SendKeeps(s: State, t: Thread, visiting: set<Thread>)
    requires OneInFlight(s) && NoEditLost(s, visiting)
    requires t in s.live && t in s.saves && s.saves[t].requestId == 0
    ensures OneInFlight(Send(s, t)) && NoEditLost(Send(s, t), visiting - {t})
    ensures Send(s, t).inFlight == s.inFlight[s.nextId := t] && Send(s, t).live == s.live
  {
    var s' := Send(s, t);
    assert !(t in s.cloudRequest && s.cloudRequest[t] != 0);
    assert s'.inFlight == s.inFlight[s.nextId := t];
    forall u | u in s.live && u != t ensures Sent(s', u) || Queued(s', visiting - {t}, u) || ChangedBehind(s', u) {
      assert Sent(s, u) || Queued(s, visiting, u) || ChangedBehind(s, u);
    }
  }

  lemma SaveOneKeeps(s: State, t: Thread, visiting: set<Thread>)
    requires OneInFlight(s) && NoEditLost(s, visiting)
    ensures OneInFlight(SaveOne(s, t)) && NoEditLost(SaveOne(s, t), visiting - {t})
    ensures SaveOne(s, t).live == s.live
  {
    hide Send;
    var s' := SaveOne(s, t);
    if t in s.saves && t in s.live && s.saves[t].requestId == 0 {
      SendKeeps(s, t, visiting);
    } else {
      forall u | u in s.live ensures Sent(s', u) || Queued(s', visiting - {t}, u) || ChangedBehind(s', u) {
        assert Sent(s, u) || Queued(s, visiting, u) || ChangedBehind(s, u);
      }
    }
  }

  lemma {:induction false} SaveAllKeeps(s: State, order: seq<Thread>, visiting: set<Thread>)
    requires OneInFlight(s) && NoEditLost(s, visiting)
    ensures OneInFlight(SaveAll(s, order)) && NoEditLost(SaveAll(s, order), visiting - set t | t in order)
    ensures SaveAll(s, order).live == s.live
  {
    hide OneInFlight, NoEditLost, SaveOne;
    if order == [] {
      assert visiting - (set t | t in order) == visiting;
    } else {
      var n := |order| - 1;
      var before := order[..n];
      SaveAllKeeps(s, before, visiting);
      SaveOneKeeps(SaveAll(s, before), order[n], visiting - set t | t in before);
      assert order == before + [order[n]];
      assert visiting - (set t | t in order) == visiting - (set t | t in before) - {order[n]};
    }
  }

  lemma DeadAnswerKeeps(s: State, id: RequestId, failed: bool)
    requires OneInFlight(s) && id in s.inFlight && s.inFlight[id] !in s.live
    ensures OneInFlight(Landed(s, id, failed))
    ensures OneInFlight(Landed(s, id, failed).(saves := s.saves - {s.inFlight[id]}))
  {
  }

  lemma LiveAnswerKeeps(s: State, id: RequestId, failed: bool)
    requires OneInFlight(s) && id in s.inFlight && s.inFlight[id] in s.live
    ensures OneInFlight(Landed(s, id, failed).(saves := s.saves - {s.inFlight[id]}))
  {
  }

  /** Losing or keeping an entry of t changes nothing for the others. */
  lemma OthersKeep(s: State, s': State, t: Thread)
    requires NoEditLost(s, {})
    requires s'.live == s.live && s'.local == s.local && s'.lastSent == s.lastSent && s'.timer == s.timer
    requires forall u :: u != t ==> (u in s'.saves <==> u in s.saves) && (u in s.saves ==> s'.saves[u] == s.saves[u])
    ensures forall u :: u in s.live && u != t ==> Sent(s', u) || Queued(s', {}, u) || ChangedBehind(s', u)
    ensures forall u :: u in s.live && u != t && u in s'.saves && s'.saves[u].requestId == 0 ==> Queued(s', {}, u)
  {
    forall u | u in s.live && u != t ensures Sent(s', u) || Queued(s', {}, u) || ChangedBehind(s', u) {
      assert Sent(s, u) || Queued(s, {}, u) || ChangedBehind(s, u);
    }
  }

  /** The answer a live thread waits for is the one its entry names. */
  lemma LiveAnswerIs(s: State, id: RequestId)
    requires OneInFlight(s) && id in s.inFlight && s.inFlight[id] in s.live
    ensures var t := s.inFlight[id];
      t in s.saves && s.saves[t].requestId == id != 0 && t in s.local
  {
  }

  lemma FinishLive(s: State, id: RequestId, failed: bool)
    requires Inv(s) && id in s.inFlight && s.inFlight[id] in s.live
    ensures Inv(Answered(s, id, failed))
  {
    hide Delayed, OneInFlight;
    var t := s.inFlight[id];
    var erased := Landed(s, id, failed).(saves := s.saves - {t});
    LiveAnswerIs(s, id);
    LiveAnswerKeeps(s, id, failed);
    OthersKeep(s, erased, t);
    assert Sent(s, t) || ChangedBehind(s, t);
    if s.saves[t].changedWhileSaving { DelayedKeeps(erased, t, {}); }
  }

  lemma FinishDead(s: State, id: RequestId, failed: bool)
    requires Inv(s) && id in s.inFlight && s.inFlight[id] !in s.live
    ensures Inv(Answered(s, id, failed))
  {
    hide Delayed, OneInFlight;
    var t := s.inFlight[id];
    var landed := Landed(s, id, failed);
    OthersKeep(s, landed, t);
    OthersKeep(s, landed.(saves := s.saves - {t}), t);
    DeadAnswerKeeps(s, id, failed);
  }

  lemma FinishKeeps(s: State, id: RequestId, failed: bool)
    requires Inv(s) && id in s.inFlight
    ensures Inv(Answered(s, id, failed))
  {
    hide Inv, Answered;
    if s.inFlight[id] in s.live { FinishLive(s, id, failed); } else { FinishDead(s, id, failed); }
  }

  lemma EditedInFlight(s: State, t: Thread, draft: Draft)
    requires OneInFlight(s) && (t in s.local ==> t in s.live)
    ensures OneInFlight(s.(local := s.local[t := draft], live := s.live + {t}))
  {
  }

  /** With the timer off, what it was armed for is what the loop has yet to visit. */
  lemma TickStarts(s: State)
    requires Inv(s)
    ensures OneInFlight(s.(timer := false)) && NoEditLost(s.(timer := false), s.saves.Keys)
  {
    var off := s.(timer := false);
    forall u | u in s.live ensures Sent(off, u) || Queued(off, s.saves.Keys, u) || ChangedBehind(off, u) {
      assert Sent(s, u) || Queued(s, {}, u) || ChangedBehind(s, u);
    }
  }

  lemma TickKeeps(s: State, order: seq<Thread>)
    requires Inv(s) && Covers(order, s.saves.Keys)
    ensures Inv(SaveAll(s.(timer := false), order))
  {
    hide SaveAll, OneInFlight;
    TickStarts(s);
    SaveAllKeeps(s.(timer := false), order, s.saves.Keys);
    assert s.saves.Keys - (set t | t in order) == {};
  }

  /** Every event keeps: at most one save in flight per live thread, and no edit lost. */
  lemma StepKeeps(s: State, ev: Event)
    requires Inv(s) && Enabled(s, ev)
    ensures Inv(Step(s, ev))
  {
    hide Delayed, Answered, SaveOne;
    match ev
    case Edit(t, draft) =>
      if !(t in s.local && t !in s.live) {
        var edited := s.(local := s.local[t := draft], live := s.live + {t});
        forall u | u in edited.live && u != t
          ensures Sent(edited, u) || Queued(edited, {}, u) || ChangedBehind(edited, u) {
          assert Sent(s, u) || Queued(s, {}, u) || ChangedBehind(s, u);
        }
        EditedInFlight(s, t, draft);
        DelayedKeeps(edited, t, {});
      }
    case Tick(order) => TickKeeps(s, order);
    case Done(id) => FinishKeeps(s, id, false);
    case Fail(id) => FinishKeeps(s, id, true);
    case Die(t) =>
      forall u | u in s.live ensures Sent(Step(s, ev), u) || Queued(Step(s, ev), {}, u) || ChangedBehind(Step(s, ev), u) {
        assert Sent(s, u) || Queued(s, {}, u) || ChangedBehind(s, u);
      }
  }

  // ----- whole runs

  ghost predicate IsRun(states: seq<State>, evs: seq<Event>) {
    && |states| == |evs| + 1 && states[0] == START
    && forall i :: 0 <= i < |evs| ==> Enabled(states[i], evs[i]) && states[i + 1] == Step(states[i], evs[i])
  }

  lemma {:induction false} RunKeeps(states: seq<State>, evs: seq<Event>, k: nat)
    requires IsRun(states, evs) && k <= |evs|
    ensures Inv(states[k])
  {
    hide Step, Enabled;
    if k > 0 {
      RunKeeps(states, evs, k - 1);
      assert states[k] == Step(states[k - 1], evs[k - 1]);
      StepKeeps(states[k - 1], evs[k - 1]);
    }
  }

  /** No live thread ever has two saves in flight. */
  lemma AtMostOneSave(states: seq<State>, evs: seq<Event>, k: nat, a: RequestId, b: RequestId)
    requires IsRun(states, evs) && k <= |evs|
    requires a in states[k].inFlight && b in states[k].inFlight
    requires states[k].inFlight[a] == states[k].inFlight[b] && states[k].inFlight[a] in states[k].live
    ensures a == b
  {
    RunKeeps(states, evs, k);
  }

  /** At every point of every run, the latest edit of a live thread was sent, or is queued with the timer
      armed, or is marked behind the one save in flight. */
  lemma NoEditIsLost(states: seq<State>, evs: seq<Event>, k: nat, t: Thread)
    requires IsRun(states, evs) && k <= |evs| && t in states[k].live
    ensures var s := states[k];
      || Sent(s, t)
      || (t in s.saves && s.saves[t].requestId == 0 && s.timer)
      || (t in s.saves && s.saves[t].changedWhileSaving && s.saves[t].requestId in s.inFlight
          && s.inFlight[s.saves[t].requestId] == t)
    ensures var s := states[k];
      t in s.saves && s.saves[t].changedWhileSaving ==> s.saves[t].requestId != 0
  {
    RunKeeps(states, evs, k);
  }

  /** An empty map means every last edit was sent. */
  lemma EmptyMeansSent(states: seq<State>, evs: seq<Event>, k: nat, t: Thread)
    requires IsRun(states, evs) && k <= |evs| && t in states[k].live && states[k].saves == map[]
    ensures Sent(states[k], t)
  {
    RunKeeps(states, evs, k);
  }

  lemma {:induction false} SaveAllCancelsNone(s: State, order: seq<Thread>, visiting: set<Thread>)
    requires OneInFlight(s) && NoEditLost(s, visiting)
    ensures forall id :: id in s.inFlight ==>
      id in SaveAll(s, order).inFlight && SaveAll(s, order).inFlight[id] == s.inFlight[id]
  {
    hide OneInFlight, NoEditLost, Send;
    if order != [] {
      var n := |order| - 1;
      var before := order[..n];
      SaveAllKeeps(s, before, visiting);
      SaveAllCancelsNone(s, before, visiting);
      SaveOneCancelsNone(SaveAll(s, before), order[n], visiting - set t | t in before);
    }
  }

  lemma SaveOneCancelsNone(s: State, t: Thread, visiting: set<Thread>)
    requires OneInFlight(s) && NoEditLost(s, visiting)
    ensures forall id :: id in s.inFlight ==> id in SaveOne(s, t).inFlight && SaveOne(s, t).inFlight[id] == s.inFlight[id]
  {
    hide Send;
    if t in s.saves && t in s.live && s.saves[t].requestId == 0 {
      SendKeeps(s, t, visiting);
      assert s.nextId !in s.inFlight;
    }
  }

  /** A tick cancels nothing: every save in flight before it is in flight after it, for the same thread. */
  lemma TicksCancelNothing(states: seq<State>, evs: seq<Event>, k: nat, id: RequestId)
    requires IsRun(states, evs) && k < |evs| && evs[k].Tick? && id in states[k].inFlight
    ensures id in states[k + 1].inFlight && states[k + 1].inFlight[id] == states[k].inFlight[id]
  {
    RunKeeps(states, evs, k);
    var s, order := states[k], evs[k].order;
    assert Enabled(s, evs[k]) && states[k + 1] == Step(s, evs[k]);
    hide SaveAll;
    TickStarts(s);
    SaveAllCancelsNone(s.(timer := false), order, s.saves.Keys);
  }

  /** Once every request is answered, one tick sends every edit that is still unsent. */
  lemma OneTickDrains(s: State, order: seq<Thread>, t: Thread)
    requires Inv(s) && s.inFlight == map[] && Covers(order, s.saves.Keys) && t in s.live
    ensures Sent(SaveAll(s.(timer := false), order), t)
  {
    hide SaveAll;
    var off := s.(timer := false);
    assert Sent(s, t) || Queued(s, {}, t) || ChangedBehind(s, t);
    assert order[..|order|] == order;
    DrainedPrefix(off, order, |order|, t);
  }

  ghost predicate SentOrQueued(s: State, t: Thread) {
    Sent(s, t) || (t in s.saves && s.saves[t].requestId == 0)
  }

  lemma SaveOneDrains(s: State, u: Thread, t: Thread)
    requires t in s.live && SentOrQueued(s, t)
    ensures var s' := SaveOne(s, u);
      s'.live == s.live && SentOrQueued(s', t) && ((u == t || Sent(s, t)) ==> Sent(s', t))
  {
  }

  lemma {:induction false} DrainedPrefix(s: State, order: seq<Thread>, k: nat, t: Thread)
    requires k <= |order| && t in s.live && SentOrQueued(s, t)
    ensures var s' := SaveAll(s, order[..k]);
      s'.live == s.live && SentOrQueued(s', t) && ((t in order[..k] || Sent(s, t)) ==> Sent(s', t))
  {
    hide SaveOne, Sent, SentOrQueued;
    if k > 0 {
      DrainedPrefix(s, order, k - 1, t);
      assert order[..k] == order[..k - 1] + [order[k - 1]];
      SaveAllMore(s, order[..k - 1], order[k - 1]);
      SaveOneDrains(SaveAll(s, order[..k - 1]), order[k - 1], t);
    }
  }

  // ----- nothing is saved for no reason

  /** Queued, or marked behind a save in flight. */
  predicate Waits(s: State, t: Thread) {
    t in s.saves && (s.saves[t].requestId == 0 || s.saves[t].changedWhileSaving)
  }

  /** A request for `t` is in flight at `s2` that was not at `s`. */
  ghost predicate SentBetween(s: State, s2: State, t: Thread) {
    exists id :: id in s2.inFlight && id !in s.inFlight && s2.inFlight[id] == t
  }

  /** What a step may do to thread `t`: only an edit makes it wait, and a send ends that. */
  ghost predicate Owes(s: State, s2: State, t: Thread, edited: bool) {
    && (SentBetween(s, s2, t) ==> Waits(s, t) && !Waits(s2, t))
    && (Waits(s2, t) ==> Waits(s, t) || edited)
  }

  lemma SaveOneOwes(s: State, u: Thread, t: Thread, visiting: set<Thread>)
    requires OneInFlight(s) && NoEditLost(s, visiting)
    ensures Owes(s, SaveOne(s, u), t, false)
  {
    hide Send;
    if u in s.saves && u in s.live && s.saves[u].requestId == 0 {
      SendKeeps(s, u, visiting);
      assert Send(s, u).saves == s.saves[u := SaveState(s.nextId, false)] by { SendMarks(s, u); }
    }
  }

  lemma SendMarks(s: State, u: Thread)
    ensures Send(s, u).saves == s.saves[u := SaveState(s.nextId, false)]
  {
  }

  lemma {:induction false} SaveAllOwes(s: State, order: seq<Thread>, t: Thread, visiting: set<Thread>)
    requires OneInFlight(s) && NoEditLost(s, visiting)
    ensures Owes(s, SaveAll(s, order), t, false)
  {
    hide OneInFlight, NoEditLost, SaveOne, Waits;
    if order != [] {
      var n := |order| - 1;
      var before := order[..n];
      var rest := visiting - set v | v in before;
      var u, s2 := SaveAll(s, before), SaveAll(s, order);
      SaveAllKeeps(s, before, visiting);
      SaveAllOwes(s, before, t, visiting);
      SaveOneOwes(u, order[n], t, rest);
      SaveOneCancelsNone(u, order[n], rest);
      if SentBetween(s, s2, t) {
        var id :| id in s2.inFlight && id !in s.inFlight && s2.inFlight[id] == t;
        if id in u.inFlight {
          assert SentBetween(s, u, t);
        } else {
          assert SentBetween(u, s2, t);
        }
      }
    }
  }

  predicate Edits(ev: Event, t: Thread) {
    ev.Edit? && ev.thread == t
  }

  lemma StepOwes(s: State, ev: Event, t: Thread)
    requires Inv(s) && Enabled(s, ev)
    ensures Owes(s, Step(s, ev), t, Edits(ev, t))
  {
    hide SaveAll, Answered, Inv, Delayed;
    match ev
    case Edit(u, draft) => EditOwes(s, u, draft, t);
    case Tick(order) =>
      var off := s.(timer := false);
      TickStarts(s);
      SaveAllOwes(off, order, t, s.saves.Keys);
      assert SentBetween(s, Step(s, ev), t) ==> SentBetween(off, Step(s, ev), t);
    case Done(id) => AnswerOwes(s, id, false, t);
    case Fail(id) => AnswerOwes(s, id, true, t);
    case Die(_) =>
  }

  lemma EditOwes(s: State, u: Thread, draft: Draft, t: Thread)
    ensures var edited := s.(local := s.local[u := draft], live := s.live + {u});
      Owes(s, Delayed(edited, u), t, u == t)
  {
  }

  lemma AnswerOwes(s: State, id: RequestId, failed: bool, t: Thread)
    requires id in s.inFlight
    ensures Owes(s, Answered(s, id, failed), t, false)
  {
    hide Waits, Answered;
    AnswerFlies(s, id, failed);
    AnswerWaits(s, id, failed, t);
  }

  lemma AnswerFlies(s: State, id: RequestId, failed: bool)
    requires id in s.inFlight
    ensures Answered(s, id, failed).inFlight == s.inFlight - {id}
  {
  }

  lemma AnswerWaits(s: State, id: RequestId, failed: bool, t: Thread)
    requires id in s.inFlight
    ensures Waits(Answered(s, id, failed), t) ==> Waits(s, t)
  {
  }

  /** Edits of `t` among the first `k` events. */
  function EditCount(evs: seq<Event>, t: Thread, k: nat): nat
    requires k <= |evs|
  {
    if k == 0 then 0 else EditCount(evs, t, k - 1) + if Edits(evs[k - 1], t) then 1 else 0
  }

  /** Saves of `t` sent in the first `k` steps. */
  ghost function SendCount(states: seq<State>, t: Thread, k: nat): nat
    requires k < |states|
  {
    if k == 0 then 0 else SendCount(states, t, k - 1) + if SentBetween(states[k - 1], states[k], t) then 1 else 0
  }

  lemma RunOwes(states: seq<State>, evs: seq<Event>, k: nat, t: Thread)
    requires IsRun(states, evs) && k < |evs|
    ensures Owes(states[k], states[k + 1], t, Edits(evs[k], t))
  {
    RunKeeps(states, evs, k);
    assert Enabled(states[k], evs[k]) && states[k + 1] == Step(states[k], evs[k]);
    hide Inv, Enabled, Step, Owes;
    StepOwes(states[k], evs[k], t);
  }

  /** Between any two points of a run a thread is not sent more often than it was edited, but for one send that it
      waited for already; what it waits for then is not sent yet. Without edits it is sent once at most. */
  lemma {:induction false} SendsWithinEdits(states: seq<State>, evs: seq<Event>, from: nat, k: nat, t: Thread)
    requires IsRun(states, evs) && from <= k <= |evs|
    ensures SendCount(states, t, k) + (if Waits(states[k], t) then 1 else 0)
      <= SendCount(states, t, from) + (if Waits(states[from], t) then 1 else 0)
         + EditCount(evs, t, k) - EditCount(evs, t, from)
  {
    hide IsRun, Waits, SentBetween;
    if from < k {
      SendsWithinEdits(states, evs, from, k - 1, t);
      RunOwes(states, evs, k - 1, t);
    }
  }

  /** What waits to be sent was edited after it was last sent. */
  lemma {:induction false} WaitsForAnEdit(states: seq<State>, evs: seq<Event>, k: nat, t: Thread)
    requires IsRun(states, evs) && k <= |evs| && Waits(states[k], t)
    ensures exists i :: 0 <= i < k && EditedSince(states, evs, i, k, t)
  {
    hide Waits, SentBetween;
    assert !Waits(START, t) by { NothingWaits(t); }
    if k > 0 {
      RunOwes(states, evs, k - 1, t);
      hide IsRun;
      if Edits(evs[k - 1], t) && !SentBetween(states[k - 1], states[k], t) {
        assert EditedSince(states, evs, k - 1, k, t);
      } else {
        WaitsForAnEdit(states, evs, k - 1, t);
        var i :| 0 <= i < k - 1 && EditedSince(states, evs, i, k - 1, t);
        assert EditedSince(states, evs, i, k, t);
      }
    }
  }

  /** Event `i` edits the thread, and no step from there to `k` sends it. */
  ghost predicate EditedSince(states: seq<State>, evs: seq<Event>, i: nat, k: nat, t: Thread)
    requires i < k <= |evs| && |states| == |evs| + 1
  {
    Edits(evs[i], t) && forall j :: i <= j < k ==> !SentBetween(states[j], states[j + 1], t)
  }

  lemma NothingWaits(t: Thread)
    ensures !Waits(START, t)
  {
  }

  /** The draft of a live thread is that of its latest edit. */
  lemma {:induction false} LocalIsLastEdit(states: seq<State>, evs: seq<Event>, k: nat, t: Thread)
    requires IsRun(states, evs) && k <= |evs| && t in states[k].live
    ensures t in states[k].local
    ensures exists i :: 0 <= i < k && evs[i] == Edit(t, states[k].local[t]) && forall j :: i < j < k ==> !Edits(evs[j], t)
  {
    hide SaveAll, Answered, Delayed;
    if k > 0 {
      var s, ev := states[k - 1], evs[k - 1];
      assert Enabled(s, ev) && states[k] == Step(s, ev);
      StepLocal(s, ev, t);
      hide Step, Enabled, IsRun;
      if Edits(ev, t) {
        assert ev == Edit(t, states[k].local[t]);
      } else {
        LocalIsLastEdit(states, evs, k - 1, t);
      }
    }
  }

  lemma {:induction false} SaveAllLocal(s: State, order: seq<Thread>)
    ensures SaveAll(s, order).local == s.local && SaveAll(s, order).live == s.live
  {
    if order != [] {
      SaveAllLocal(s, order[..|order| - 1]);
    }
  }

  lemma StepLocal(s: State, ev: Event, t: Thread)
    requires Enabled(s, ev) && t in Step(s, ev).live
    ensures var u := Step(s, ev);
      if Edits(ev, t) then t in u.local && u.local[t] == ev.draft
      else t in s.live && (t in u.local <==> t in s.local) && (t in s.local ==> u.local[t] == s.local[t])
  {
    hide SaveAll, Answered, Delayed;
    match ev
    case Edit(u, draft) => DelayedLocal(s.(local := s.local[u := draft], live := s.live + {u}), u);
    case Tick(order) => SaveAllLocal(s.(timer := false), order);
    case Done(id) => AnsweredLocal(s, id, false);
    case Fail(id) => AnsweredLocal(s, id, true);
    case Die(_) =>
  }

  lemma DelayedLocal(s: State, t: Thread)
    ensures Delayed(s, t).local == s.local && Delayed(s, t).live == s.live
  {
  }

  lemma AnsweredLocal(s: State, id: RequestId, failed: bool)
    requires id in s.inFlight
    ensures Answered(s, id, failed).local == s.local && Answered(s, id, failed).live == s.live
  {
    hide Finish;
    FinishLocal(Landed(s, id, failed), s.inFlight[id], id);
  }

  lemma FinishLocal(s: State, t: Thread, id: RequestId)
    ensures Finish(s, t, id).local == s.local && Finish(s, t, id).live == s.live
  {
    hide Delayed;
    DelayedLocal(s.(saves := s.saves - {t}), t);
  }

  /** After a tick no thread that is gone has an entry. */
  lemma TickDropsDead(states: seq<State>, evs: seq<Event>, k: nat, t: Thread)
    requires IsRun(states, evs) && k < |evs| && evs[k].Tick? && t in states[k + 1].saves
    ensures t in states[k + 1].live
  {
    var s, order := states[k], evs[k].order;
    assert Enabled(s, evs[k]) && states[k + 1] == Step(s, evs[k]);
    hide SaveAll;
    var off := s.(timer := false);
    SaveAllLocal(off, order);
    if t !in s.live {
      assert t in s.saves.Keys ==> t in order;
      assert order[..|order|] == order;
      DeadGone(off, order, |order|, t);
    }
  }

  lemma {:induction false} DeadGone(s: State, order: seq<Thread>, k: nat, t: Thread)
    requires k <= |order| && t !in s.live
    ensures var u := SaveAll(s, order[..k]);
      u.live == s.live && (t in u.saves ==> t in s.saves && t !in order[..k])
  {
    hide Send;
    if k > 0 {
      DeadGone(s, order, k - 1, t);
      assert order[..k] == order[..k - 1] + [order[k - 1]];
      SaveAllMore(s, order[..k - 1], order[k - 1]);
      SaveOneDead(SaveAll(s, order[..k - 1]), order[k - 1], t);
    }
  }

  lemma SaveOneDead(s: State, u: Thread, t: Thread)
    requires t !in s.live
    ensures var v := SaveOne(s, u);
      v.live == s.live && (t in v.saves ==> t in s.saves && u != t)
  {
  }

  /** The answer to a save of a live thread: it is the request its cloud draft keeps, which is forgotten, with the
      cloud draft itself when the save failed. */
  lemma AnswerEndsRequest(states: seq<State>, evs: seq<Event>, k: nat)
    requires IsRun(states, evs) && k < |evs| && (evs[k].Done? || evs[k].Fail?)
    requires states[k].inFlight[evs[k].id] in states[k].live
    ensures var s, u, id := states[k], states[k + 1], evs[k].id;
      var t := s.inFlight[id];
      && u.inFlight == s.inFlight - {id} && t in s.cloudRequest && s.cloudRequest[t] == id
      && u.cloudRequest == if evs[k].Fail? then s.cloudRequest - {t} else s.cloudRequest[t := 0]
  {
    RunKeeps(states, evs, k);
    assert Enabled(states[k], evs[k]) && states[k + 1] == Step(states[k], evs[k]);
  }

  /** A send takes out of flight exactly the request its cloud draft keeps, unless the local draft is a null one. */
  lemma SendCancelsKept(s: State, t: Thread, id: RequestId)
    requires id in s.inFlight && id < s.nextId
    ensures id !in Send(s, t).inFlight <==>
      id != 0 && t in s.cloudRequest && s.cloudRequest[t] == id && t in s.local && s.local[t].Plain?
  {
  }
}
