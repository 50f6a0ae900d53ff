/** Whole runs of the album sender: what is asserted, handed over, left behind, and which captions go out. */
module AlbumRuns {
  import opened Albums
  import opened Since
  import opened Text

  // ----- albums that are left behind

  /** A step is local to the album it is about. */
  lemma StepLocal(s: State, e: Event)
    requires RunInv(s) && Enabled(s, e) && !e.Began?
    ensures e.group in s.order && Local(s, Step(s, e), e.group)
  {
    hide RunInv, Local, Fill, Remove, Drop, Prepare, IfReady, Middle, Captioned, GroupInv;
    match e
    case Prepared(g, m, caption) => PrepareLocal(s, g, m, caption);
    case Unprepared(g, m) => DropLocal(s, g, m);
    case Uploaded(g, m, u) =>
      FillLocal(s, g, m, u);
      ReadyLocal(Fill(s, g, m, u), g);
      FillAtMost(s, g, m, u);
      LocalChain(s, Fill(s, g, m, u), IfReady(Fill(s, g, m, u), g), g);
    case Cancelled(g, m) =>
      GroupHolds(s, g);
      RemoveLocal(s, g, m);
      ReadyLocal(Remove(s, g, m), g);
      RemoveAtMost(s, g, m);
      LocalChain(s, Remove(s, g, m), IfReady(Remove(s, g, m), g), g);
    case Over(g) =>
      OverLocal(s, g);
      AlbumBegan(s, g);
  }

  lemma FillAtMost(s: State, g: GroupId, m: MsgId, u: Upload)
    ensures var t := Fill(s, g, m, u);
      t == s.(albums := t.albums, uploaded := t.uploaded)
  {
    hide Find, FillAt;
  }

  lemma AlbumBegan(s: State, g: GroupId)
    requires RunInv(s) && g in s.albums
    ensures g in s.order
  {
    hide GroupInv, Captioned, HandedOnce;
  }

  lemma OthersSame(s: State, e: Event, g: GroupId)
    requires RunInv(s) && Enabled(s, e) && e.group != g && g in s.order
    ensures SameFor(s, Step(s, e), g)
  {
    hide RunInv, Local, Step, SameFor, Enabled;
    if e.Began? {
      StepBegan(s, e);
      BeginSame(s, e.group, e.order, g);
    } else {
      StepLocal(s, e);
      GroupHolds(s, g);
      LocalIsSame(s, Step(s, e), e.group, g);
    }
  }

  lemma StepBegan(s: State, e: Event)
    requires Enabled(s, e) && e.Began?
    ensures |e.order| > 0 && Step(s, e) == Begin(s, e.group, e.order)
  {
  }

  /** What leaves an album behind is a file that cannot be prepared, and only a cancellation takes it up again. */
  lemma BehindStep(s: State, e: Event, g: GroupId)
    requires RunInv(s) && Enabled(s, e)
    ensures var t := Step(s, e);
      Behind(t, g) <==>
        || (e.Unprepared? && e.group == g && AllUploaded(t, Remaining(t, g)))
        || (Behind(s, g) && !(e.Cancelled? && e.group == g))
  {
    if e.group == g {
      BehindOwn(s, e);
    } else if g in s.order {
      hide RunInv, Step, Behind, Enabled, SameFor, GroupInv;
      OthersSame(s, e, g);
      GroupHolds(s, g);
      SameKeeps(s, Step(s, e), g);
    } else {
      hide RunInv, Step, Enabled, GroupInv, Remaining, AllUploaded;
      NotBegan(s, e, g);
    }
  }

  lemma NotBegan(s: State, e: Event, g: GroupId)
    requires RunInv(s) && Enabled(s, e) && g !in s.order && e.group != g
    ensures g !in s.albums && g !in Step(s, e).albums
  {
    hide GroupInv, Captioned, HandedOnce, SameItem;
    if e.Began? {
      StepBegan(s, e);
    } else {
      assert g !in s.albums;
      hide RunInv, Step;
      StepLocal(s, e);
    }
  }

  lemma BehindOwn(s: State, e: Event)
    requires RunInv(s) && Enabled(s, e)
    ensures var t := Step(s, e);
      Behind(t, e.group) <==>
        || (e.Unprepared? && AllUploaded(t, Remaining(t, e.group)))
        || (Behind(s, e.group) && !e.Cancelled?)
  {
    hide RunInv, Fill, Remove, Drop, IfReady, HandsOver, Remaining, AllUploaded;
    match e
    case Began(g, order) =>
      BeganHolds(s, e);
      BeginOwn(s, g, order);
    case Prepared(g, m, caption) =>
      GroupHolds(s, g);
      OutstandingIs(s, e);
      PrepareWaits(s, g, m, caption);
    case Unprepared(g, m) =>
      GroupHolds(s, g);
      OutstandingIs(s, e);
      DropKeeps(s, g, m);
    case Uploaded(g, m, u) =>
      GroupHolds(s, g);
      OutstandingIs(s, e);
      StepKeeps(s, e);
    case Cancelled(g, m) => StepKeeps(s, e);
    case Over(g) =>
  }

  lemma BeganHolds(s: State, e: Event)
    requires RunInv(s) && Enabled(s, e) && e.Began?
    ensures HandedOnce(s) && e.group !in s.albums
  {
    hide GroupInv, Captioned, HandedOnce;
  }

  lemma PrepareWaits(s: State, g: GroupId, m: MsgId, caption: string)
    requires !AllUploaded(s, Remaining(s, g))
    ensures !Behind(Prepare(s, g, m, caption), g)
  {
    hide Remaining, Find, Trim;
    SameRemaining(s, Prepare(s, g, m, caption), g);
  }

  // ----- whole runs

  ghost predicate IsRun(states: seq<State>, events: seq<Event>) {
    && |states| == |events| + 1 && states[0] == START
    && forall i :: 0 <= i < |events| ==> Enabled(states[i], events[i]) && states[i + 1] == Step(states[i], events[i])
  }

  lemma {:induction false} RunKeeps(states: seq<State>, events: seq<Event>, k: nat)
    requires IsRun(states, events) && k <= |events|
    ensures RunInv(states[k])
  {
    if k > 0 {
      RunKeeps(states, events, k - 1);
      hide RunInv, Step, Enabled, HandsOver;
      StepKeeps(states[k - 1], events[k - 1]);
    }
  }

  /** In every run, whatever the order of events, the source's assertions hold at each of them. */
  lemma AssertionsNeverFail(states: seq<State>, events: seq<Event>, k: nat)
    requires IsRun(states, events) && k < |events|
    ensures Asserted(states[k], events[k])
  {
    RunKeeps(states, events, k);
    hide RunInv, Asserted;
    AssertionsHold(states[k], events[k]);
  }

  /** No album is ever handed over twice. */
  lemma HandedAtMostOnce(states: seq<State>, events: seq<Event>, k: nat, i: nat, j: nat)
    requires IsRun(states, events) && k <= |events| && i < j < |states[k].handed|
    ensures states[k].handed[i].group != states[k].handed[j].group
  {
    RunKeeps(states, events, k);
  }

  /** Which groups are handed over at a step: the one whose upload or cancellation left nothing outstanding. */
  lemma HandedExactlyWhenReady(states: seq<State>, events: seq<Event>, k: nat)
    requires IsRun(states, events) && k < |events|
    ensures var s, t := states[k], states[k + 1];
      if (events[k].Uploaded? || events[k].Cancelled?) && Ready(t, events[k].group) && !Handed(s, events[k].group) then
        var ms := Remaining(t, events[k].group);
        t.handed == s.handed + [Handover(events[k].group, Planned(t, ms, |ms|), |ms| == 1)]
      else t.handed == s.handed
  {
    RunKeeps(states, events, k);
    hide RunInv, Step, Enabled, Ready, Planned, Remaining, Handed;
    StepKeeps(states[k], events[k]);
    assert states[k + 1] == Step(states[k], events[k]);
  }

  /** At step `j` the last outstanding file of the album could not be prepared, and no message of it was cancelled
      from there to step `k`. */
  ghost predicate Strands(states: seq<State>, events: seq<Event>, g: GroupId, j: nat, k: nat)
    requires |states| == |events| + 1 && k <= |events|
  {
    && j < k && events[j].Unprepared? && events[j].group == g
    && AllUploaded(states[j + 1], Remaining(states[j + 1], g))
    && forall i :: j < i < k ==> !(events[i].Cancelled? && events[i].group == g)
  }

  ghost predicate Stranded(states: seq<State>, events: seq<Event>, g: GroupId, k: nat)
    requires |states| == |events| + 1 && k <= |events|
  {
    exists j: nat :: Strands(states, events, g, j, k)
  }

  /** An album is still there, unsent and with nothing outstanding, exactly when its last outstanding file could not
      be prepared and none of its messages was cancelled since. */
  lemma {:induction false} BehindIff(states: seq<State>, events: seq<Event>, k: nat, g: GroupId)
    requires IsRun(states, events) && k <= |events|
    ensures Behind(states[k], g) <==> Stranded(states, events, g, k)
  {
    if k > 0 {
      BehindIff(states, events, k - 1, g);
      RunKeeps(states, events, k - 1);
      hide RunInv, Step, Enabled, Behind, Remaining, AllUploaded, Stranded;
      BehindStep(states[k - 1], events[k - 1], g);
      assert states[k] == Step(states[k - 1], events[k - 1]);
      StrandedStep(states, events, g, k);
    }
  }

  lemma StrandedStep(states: seq<State>, events: seq<Event>, g: GroupId, k: nat)
    requires |states| == |events| + 1 && 0 < k <= |events|
    ensures Stranded(states, events, g, k) <==>
      || (events[k - 1].Unprepared? && events[k - 1].group == g && AllUploaded(states[k], Remaining(states[k], g)))
      || (Stranded(states, events, g, k - 1) && !(events[k - 1].Cancelled? && events[k - 1].group == g))
  {
    hide AllUploaded, Remaining;
    if j: nat :| Strands(states, events, g, j, k) && j < k - 1 {
      assert Strands(states, events, g, j, k - 1);
    }
    if events[k - 1].Unprepared? && events[k - 1].group == g && AllUploaded(states[k], Remaining(states[k], g)) {
      assert Strands(states, events, g, k - 1, k);
    }
    if !(events[k - 1].Cancelled? && events[k - 1].group == g) && Stranded(states, events, g, k - 1) {
      var j: nat :| Strands(states, events, g, j, k - 1);
      assert Strands(states, events, g, j, k);
    }
  }

  /** An album with something left and nothing outstanding was handed over, unless it was left behind so. */
  lemma HandedUnlessStranded(states: seq<State>, events: seq<Event>, k: nat, g: GroupId)
    requires IsRun(states, events) && k <= |events| && Ready(states[k], g)
    ensures Handed(states[k], g) <==> !Stranded(states, events, g, k)
  {
    BehindIff(states, events, k, g);
    RunKeeps(states, events, k);
    hide IsRun, Stranded, RunInv, Mirror;
    assert g in states[k].order;
    GroupHolds(states[k], g);
  }

  /** An album of two without captions: the first is uploaded, the file of the second cannot be prepared. */
  function LeftEvents(g: GroupId, u: Upload): seq<Event> {
    [Began(g, [1, 2]), Prepared(g, 1, ""), Uploaded(g, 1, u), Unprepared(g, 2)]
  }

  /** The states of an album of two, given what differs. */
  function OfTwo(g: GroupId, items: seq<Item>, texts: map<MsgId, string>, prepared: set<MsgId>,
                 uploaded: map<MsgId, Upload>, gone: set<MsgId>, first: MsgId): State
  {
    State(map[g := Album(items, false)], texts, map[g := [1, 2]], texts, prepared, uploaded, gone, [],
          map[g := [first]])
  }

  function LeftStates(g: GroupId, u: Upload): seq<State> {
    var one, two := Item(1, true, 0, None), Item(2, false, 0, None);
    var full := Item(1, true, u.randomId, Some(Media(u.content, "", u.randomId)));
    var none := map[1 := ""];
    [START, OfTwo(g, [Item(1, false, 0, None), two], map[], {}, map[], {}, 1),
     OfTwo(g, [one, two], none, {1}, map[], {}, 1), OfTwo(g, [full, two], none, {1}, map[1 := u], {}, 1),
     OfTwo(g, [full], none, {1}, map[1 := u], {2}, 1)]
  }

  lemma LeftPrepared(g: GroupId, u: Upload)
    ensures LeftStates(g, u)[2] == Prepare(LeftStates(g, u)[1], g, 1, "")
  {
    var items := LeftStates(g, u)[1].albums[g].items;
    assert Find(items, 1) == 0;
    assert items[0 := items[0].(message := true)] == LeftStates(g, u)[2].albums[g].items;
  }

  lemma LeftUploaded(g: GroupId, u: Upload)
    ensures LeftStates(g, u)[3] == IfReady(Fill(LeftStates(g, u)[2], g, 1, u), g)
  {
    var s, t := LeftStates(g, u)[2], LeftStates(g, u)[3];
    assert Find(s.albums[g].items, 1) == 0;
    assert FillAt(s.albums[g].items, 0, s.texts, u) == t.albums[g].items;
    assert t.albums[g].items[1].media.None?;
  }

  lemma LeftUnprepared(g: GroupId, u: Upload)
    ensures LeftStates(g, u)[4] == Drop(LeftStates(g, u)[3], g, 2)
  {
    var s, t := LeftStates(g, u)[3], LeftStates(g, u)[4];
    assert Find(s.albums[g].items, 2) == 1;
    assert Without(s.albums[g].items, 1) == t.albums[g].items;
  }

  /** Everything left of the album is uploaded, and it is not handed over. */
  lemma AlbumIsLeftBehind(g: GroupId, u: Upload)
    ensures IsRun(LeftStates(g, u), LeftEvents(g, u))
    ensures var s := LeftStates(g, u)[4];
      Ready(s, g) && s.handed == [] && Behind(s, g) && Filled(s.albums[g].items)
  {
    hide Prepare, Fill, Drop, IfReady, Find;
    LeftPrepared(g, u);
    LeftUploaded(g, u);
    LeftUnprepared(g, u);
    assert Fresh([1, 2]) == LeftStates(g, u)[1].albums[g].items;
    assert LeftStates(g, u)[1] == Begin(START, g, [1, 2]);
    assert Remaining(LeftStates(g, u)[4], g) == [1];
  }

  /** The first item keeps the captions it has gathered; when another comes first, it adds those of the one before only
      if that was cancelled and it is a message itself by then, and otherwise it starts with its own. */
  predicate Gathers(s: State, e: Event, t: State, g: GroupId)
    requires Remaining(t, g) != []
  {
    && Remaining(s, g) != [] && g in s.gathered && g in t.gathered
    && var first := Remaining(t, g)[0];
       t.gathered[g] ==
         if first == Remaining(s, g)[0] then s.gathered[g]
         else if e.Cancelled? && first in s.prepared then [first] + s.gathered[g]
         else [first]
  }

  /** At every step of every run, for an album that is there, this says whose captions the first item holds. */
  lemma GatheredStep(states: seq<State>, events: seq<Event>, k: nat, g: GroupId)
    requires IsRun(states, events) && k < |events|
    requires g in states[k].albums && Remaining(states[k + 1], g) != []
    ensures Gathers(states[k], events[k], states[k + 1], g)
  {
    RunKeeps(states, events, k);
    var s, e := states[k], events[k];
    assert Enabled(s, e) && states[k + 1] == Step(s, e);
    hide RunInv, Step, Enabled, Remaining, IsRun;
    AlbumBegan(s, g);
    if e.group == g {
      GatheredOwn(s, e);
    } else {
      GroupHolds(s, g);
      OthersSame(s, e, g);
      GatheredOther(s, Step(s, e), g);
    }
  }

  lemma GatheredOther(s: State, t: State, g: GroupId)
    requires SameFor(s, t, g) && Captioned(s, g) && g in s.albums && Remaining(t, g) != []
    ensures Remaining(t, g) == Remaining(s, g) && g in s.gathered && g in t.gathered && t.gathered[g] == s.gathered[g]
  {
    hide Remaining, Handed, SameItem, Glue, TextOf;
    SameForRemaining(s, t, g);
    GatheredIs(s, g);
  }

  lemma GatheredOwn(s: State, e: Event)
    requires RunInv(s) && Enabled(s, e) && e.group in s.albums && Remaining(Step(s, e), e.group) != []
    ensures Gathers(s, e, Step(s, e), e.group)
  {
    hide RunInv, Remaining, Find, IfReady, Fill, Remove, Drop, Distinct, Mirror, Captioned, Handed;
    var g := e.group;
    AlbumBegan(s, g);
    GroupHolds(s, g);
    AssertionsHold(s, e);
    if e.Cancelled? || e.Unprepared? {
      GatheredCut(s, e);
    } else {
      GatheredSame(s, e);
    }
  }

  lemma GatheredSame(s: State, e: Event)
    requires RunInv(s) && Enabled(s, e) && e.group in s.albums && Captioned(s, e.group) && GroupInv(s, e.group)
    requires (e.Prepared? || e.Uploaded? || e.Over?) && Remaining(Step(s, e), e.group) != []
    ensures Remaining(Step(s, e), e.group) == Remaining(s, e.group) && e.group in s.gathered
    ensures Step(s, e).gathered == s.gathered
  {
    hide RunInv, Remaining, Find, Captioned, GroupInv, IfReady, Fill, Prepare;
    match e {
      case Prepared(g, m, caption) => PrepareAtMost(s, g, m, caption);
      case Uploaded(g, m, u) =>
        FillAtMost(s, g, m, u);
        ReadyAtMost(Fill(s, g, m, u), g);
      case Over(g) =>
    }
    SameRemaining(s, Step(s, e), e.group);
    GatheredIs(s, e.group);
  }

  lemma PrepareAtMost(s: State, g: GroupId, m: MsgId, caption: string)
    ensures var t := Prepare(s, g, m, caption);
      && t == s.(albums := t.albums, texts := t.texts, captions := t.captions, prepared := t.prepared)
      && t.captions == s.captions[m := Trim(caption)] && t.prepared == s.prepared + {m}
  {
    hide Find, Trim;
  }

  lemma DropAtMost(s: State, g: GroupId, m: MsgId)
    ensures var t := Drop(s, g, m);
      t == s.(albums := t.albums, gathered := t.gathered, gone := s.gone + {m})
  {
    hide Find, Without;
  }

  lemma GatheredCut(s: State, e: Event)
    requires (e.Cancelled? || e.Unprepared?) && Enabled(s, e) && Asserted(s, e)
    requires e.group in s.albums && GroupInv(s, e.group) && Captioned(s, e.group)
    requires Remaining(Step(s, e), e.group) != []
    ensures Gathers(s, e, Step(s, e), e.group)
  {
    hide Remaining, Find, Distinct, Mirror, Captioned, Handed, Without, Refreshed, Moved, TextOf, Cut, Asserted,
      IfReady;
    var g, m := e.group, e.msg;
    var u := if e.Cancelled? then Remove(s, g, m) else Drop(s, g, m);
    var t := Step(s, e);
    if e.Cancelled? { ReadyAtMost(u, g); }
    assert Holds(s.albums[g].items, m) by { AssertedHolds(s, e); }
    GoneCuts(s, t, g, m);
    RemainingDistinct(s, g);
    var items := s.albums[g].items;
    var rest, ms := Without(items, Find(items, m)), Remaining(s, g);
    GatheredIs(s, g);
    CutHead(ms, Find(items, m));
    MirrorSize(s, rest, Remaining(t, g));
    MirrorHead(s, rest, Remaining(t, g));
  }

  lemma AssertedHolds(s: State, e: Event)
    requires (e.Cancelled? || e.Unprepared?) && Asserted(s, e) && e.group in s.albums
    ensures Holds(s.albums[e.group].items, e.msg)
  {
  }

  lemma CutHead(ms: seq<MsgId>, i: nat)
    requires i < |ms| && Distinct(ms) && Cut(ms, i) != []
    ensures Cut(ms, i)[0] == ms[0] <==> i > 0
  {
  }

  /** A message is cancelled before the next item is a message: its caption goes with it. */
  function LostEvents(g: GroupId, u: Upload): seq<Event> {
    [Began(g, [1, 2]), Prepared(g, 1, "a"), Cancelled(g, 1), Prepared(g, 2, ""), Uploaded(g, 2, u)]
  }

  function LostStates(g: GroupId, u: Upload): seq<State> {
    var two, mail := Item(2, false, 0, None), map[1 := "a"];
    var last := OfTwo(g, [Item(2, true, 0, None)], mail[2 := ""], {1, 2}, map[], {1}, 2);
    [START, OfTwo(g, [Item(1, false, 0, None), two], map[], {}, map[], {}, 1),
     OfTwo(g, [Item(1, true, 0, None), two], mail, {1}, map[], {}, 1), OfTwo(g, [two], mail, {1}, map[], {1}, 2), last,
     last.(albums := map[], uploaded := map[2 := u],
           handed := [Handover(g, [Media(u.content, "", u.randomId)], true)])]
  }

  lemma LostPrepared(g: GroupId, u: Upload)
    ensures LostStates(g, u)[2] == Prepare(LostStates(g, u)[1], g, 1, "a")
    ensures LostStates(g, u)[4] == Prepare(LostStates(g, u)[3], g, 2, "")
  {
    var items, one := LostStates(g, u)[1].albums[g].items, LostStates(g, u)[3].albums[g].items;
    assert Find(items, 1) == 0 && Find(one, 2) == 0;
    assert items[0 := items[0].(message := true)] == LostStates(g, u)[2].albums[g].items;
    assert one[0 := one[0].(message := true)] == LostStates(g, u)[4].albums[g].items;
  }

  lemma LostCancelled(g: GroupId, u: Upload)
    ensures LostStates(g, u)[3] == IfReady(Remove(LostStates(g, u)[2], g, 1), g)
  {
    var s, t := LostStates(g, u)[2], LostStates(g, u)[3];
    assert Find(s.albums[g].items, 1) == 0;
    assert Without(s.albums[g].items, 0) == t.albums[g].items;
    assert t == Remove(s, g, 1);
    assert t.albums[g].items[0].media.None?;
  }

  lemma LostUploaded(g: GroupId, u: Upload)
    ensures LostStates(g, u)[5] == IfReady(Fill(LostStates(g, u)[4], g, 2, u), g)
  {
    var s := LostStates(g, u)[4];
    assert Find(s.albums[g].items, 2) == 0;
    var items := FillAt(s.albums[g].items, 0, s.texts, u);
    assert items == [Item(2, true, u.randomId, Some(Media(u.content, "", u.randomId)))];
    assert Medias(items, 0) == [];
    assert Medias(items, 1) == [items[0].media.value];
  }

  /** The caption of the cancelled message is not in what goes out. */
  lemma CaptionIsLost(g: GroupId, u: Upload)
    ensures IsRun(LostStates(g, u), LostEvents(g, u))
    ensures LostStates(g, u)[2].texts == map[1 := "a"]
    ensures LostStates(g, u)[5].handed == [Handover(g, [Media(u.content, "", u.randomId)], true)]
  {
    hide Prepare, Fill, Remove, IfReady, Find;
    LostPrepared(g, u);
    LostCancelled(g, u);
    LostUploaded(g, u);
    assert Fresh([1, 2]) == LostStates(g, u)[1].albums[g].items;
    assert LostStates(g, u)[1] == Begin(START, g, [1, 2]);
  }

  lemma {:induction false} PlannedAt(s: State, ms: seq<MsgId>, k: nat, i: nat)
    requires k <= |ms| && AllUploaded(s, ms) && i < k
    ensures |Planned(s, ms, k)| == k
    ensures Planned(s, ms, k)[i]
      == Media(s.uploaded[ms[i]].content, Trim(TextOf(s.texts, ms[i])), s.uploaded[ms[i]].randomId)
  {
    hide Trim, TextOf;
    if i < k - 1 {
      PlannedAt(s, ms, k - 1, i);
    } else if k > 1 {
      PlannedAt(s, ms, k - 1, 0);
    }
  }

  /** The album just before the last check of an upload or a cancellation. */
  function Checked(s: State, e: Event): State
    requires e.Uploaded? || e.Cancelled?
  {
    if e.Uploaded? then Fill(s, e.group, e.msg, e.upload) else Remove(s, e.group, e.msg)
  }

  lemma CheckedIs(s: State, e: Event)
    requires RunInv(s) && Enabled(s, e) && (e.Uploaded? || e.Cancelled?)
    ensures Middle(s, Checked(s, e), e.group) && Captioned(Checked(s, e), e.group)
    ensures Step(s, e) == IfReady(Checked(s, e), e.group)
  {
    hide RunInv, Middle, Captioned, Fill, Remove, IfReady;
    if e.Uploaded? {
      UploadMiddle(s, e.group, e.msg, e.upload);
    } else {
      CancelMiddle(s, e.group, e.msg);
    }
  }

  lemma ReadyIsKept(s: State, u: State, g: GroupId)
    requires RunInv(s) && Middle(s, u, g) && Captioned(u, g) && !Handed(s, g) && Remaining(u, g) != []
    ensures g in u.albums && g in u.order && g in u.gathered
    ensures TextOf(u.texts, Remaining(u, g)[0]) == Glue(u.captions, u.gathered[g])
    ensures forall i :: 1 <= i < |Remaining(u, g)| ==>
      TextOf(u.texts, Remaining(u, g)[i]) == TextOf(u.captions, Remaining(u, g)[i])
    ensures forall j :: 1 <= j < |u.gathered[g]| ==> WasCancelled(u, g, u.gathered[g][j])
  {
    hide RunInv, Remaining, Glue, TextOf, Handed, Mirror, Ready, SameItem;
    GroupHolds(s, g);
  }

  /** What goes out when an album is handed over: item by item the upload of what is left, in album order; every
      caption is the item's own, except that the first carries along the captions of messages that were cancelled
      while they were the first, all of them trimmed. */
  lemma HandedListIs(states: seq<State>, events: seq<Event>, k: nat, i: nat)
    requires IsRun(states, events) && k < |events| && (events[k].Uploaded? || events[k].Cancelled?)
    requires Ready(states[k + 1], events[k].group) && !Handed(states[k], events[k].group)
    requires i < |Remaining(states[k + 1], events[k].group)|
    ensures var t, g := states[k + 1], events[k].group;
      var ms := Remaining(t, g);
      && g in t.order && ms[i] in t.order[g] && ms[i] !in t.gone && |Planned(t, ms, |ms|)| == |ms|
      && Planned(t, ms, |ms|)[i].content == t.uploaded[ms[i]].content
      && Planned(t, ms, |ms|)[i].randomId == t.uploaded[ms[i]].randomId
      && g in t.gathered
      && Planned(t, ms, |ms|)[i].caption
         == Trim(if i == 0 then Glue(t.captions, t.gathered[g]) else TextOf(t.captions, ms[i]))
      && forall j :: 1 <= j < |t.gathered[g]| ==> WasCancelled(t, g, t.gathered[g][j])
  {
    RunKeeps(states, events, k);
    var s, t, g := states[k], states[k + 1], events[k].group;
    var u := Checked(s, events[k]);
    assert Enabled(s, events[k]) && t == Step(s, events[k]);
    hide RunInv, Planned, Glue, Enabled, Step, Middle, Captioned, Remaining, TextOf, Checked, Handed, IfReady, Trim;
    CheckedIs(s, events[k]);
    ReadyAtMost(u, g);
    SameRemaining(u, t, g);
    var ms := Remaining(t, g);
    ReadyIsKept(s, u, g);
    PlannedAt(t, ms, |ms|, i);
    RemainingMember(t, g, ms[i]);
  }

  // ----- what the history of a run holds

  ghost predicate Makes(e: Event, m: MsgId) { e.Prepared? && e.msg == m }

  ghost predicate Uploads(e: Event, m: MsgId) { e.Uploaded? && e.msg == m }

  ghost predicate Loses(e: Event, m: MsgId) { (e.Unprepared? || e.Cancelled?) && e.msg == m }

  ghost predicate Begins(e: Event, g: GroupId) { e.Began? && e.group == g }

  /** The history a step adds, of message `m` and album `g`. */
  ghost predicate Records(s: State, e: Event, t: State, m: MsgId, g: GroupId) {
    && (m in t.prepared <==> m in s.prepared || Makes(e, m)) && !(m in s.prepared && Makes(e, m))
    && (Makes(e, m) ==> m in t.captions && t.captions[m] == Trim(e.caption))
    && (m in s.captions && !Makes(e, m) ==> m in t.captions && t.captions[m] == s.captions[m])
    && (m in t.uploaded <==> m in s.uploaded || Uploads(e, m)) && !(m in s.uploaded && Uploads(e, m))
    && (m in t.uploaded ==> t.uploaded[m] == if Uploads(e, m) then e.upload else s.uploaded[m])
    && (m in t.gone <==> m in s.gone || Loses(e, m))
    && (g in t.order <==> g in s.order || Begins(e, g)) && !(g in s.order && Begins(e, g))
    && (g in t.order ==> t.order[g] == if Begins(e, g) then e.order else s.order[g])
  }

  lemma StepRecords(s: State, e: Event, m: MsgId, g: GroupId)
    requires RunInv(s) && Enabled(s, e)
    ensures Records(s, e, Step(s, e), m, g)
  {
    hide RunInv, Records, Step, Enabled;
    match e
    case Began(_, _) => BeginRecords(s, e, m, g);
    case Prepared(_, _, _) => PrepareRecords(s, e, m, g);
    case Unprepared(_, _) => DropRecords(s, e, m, g);
    case Uploaded(_, _, _) => UploadRecords(s, e, m, g);
    case Cancelled(_, _) => CancelRecords(s, e, m, g);
    case Over(_) => OverRecords(s, e, m, g);
  }

  lemma BeginRecords(s: State, e: Event, m: MsgId, g: GroupId)
    requires Enabled(s, e) && e.Began?
    ensures Records(s, e, Step(s, e), m, g)
  {
    hide Trim, Distinct, Unknown, Fresh;
  }

  lemma PrepareRecords(s: State, e: Event, m: MsgId, g: GroupId)
    requires Enabled(s, e) && e.Prepared?
    ensures Records(s, e, Step(s, e), m, g)
  {
    hide Find, Trim, Prepare;
    PrepareAtMost(s, e.group, e.msg, e.caption);
  }

  lemma DropRecords(s: State, e: Event, m: MsgId, g: GroupId)
    requires Enabled(s, e) && e.Unprepared?
    ensures Records(s, e, Step(s, e), m, g)
  {
    hide Trim, Drop;
    DropAtMost(s, e.group, e.msg);
  }

  lemma OverRecords(s: State, e: Event, m: MsgId, g: GroupId)
    requires Enabled(s, e) && e.Over?
    ensures Records(s, e, Step(s, e), m, g)
  {
    hide Trim;
  }

  lemma UploadRecords(s: State, e: Event, m: MsgId, g: GroupId)
    requires RunInv(s) && Enabled(s, e) && e.Uploaded?
    ensures Records(s, e, Step(s, e), m, g)
  {
    hide RunInv, Find, Trim, IfReady, FillAt, Distinct;
    AssertionsHold(s, e);
    ReadyAtMost(Fill(s, e.group, e.msg, e.upload), e.group);
  }

  lemma CancelRecords(s: State, e: Event, m: MsgId, g: GroupId)
    requires Enabled(s, e) && e.Cancelled?
    ensures Records(s, e, Step(s, e), m, g)
  {
    hide Find, Trim, IfReady, Remove, Without, Distinct;
    RemoveAtMost(s, e.group, e.msg);
    ReadyAtMost(Remove(s, e.group, e.msg), e.group);
  }

  /** In every run the history is what its events say: which files became messages and with which captions, trimmed;
      what was uploaded for which; which are gone; which albums began, with which files. */
  lemma {:induction false} HistoryIs(states: seq<State>, events: seq<Event>, k: nat, m: MsgId, g: GroupId)
    requires IsRun(states, events) && k <= |events|
    ensures var s := states[k];
      && (m in s.prepared <==> exists j :: 0 <= j < k && Makes(events[j], m))
      && (forall j :: 0 <= j < k && Makes(events[j], m) ==>
            m in s.captions && s.captions[m] == Trim(events[j].caption))
      && (m in s.uploaded <==> exists j :: 0 <= j < k && Uploads(events[j], m))
      && (forall j :: 0 <= j < k && Uploads(events[j], m) ==> m in s.uploaded && s.uploaded[m] == events[j].upload)
      && (m in s.gone <==> exists j :: 0 <= j < k && Loses(events[j], m))
      && (g in s.order <==> exists j :: 0 <= j < k && Begins(events[j], g))
      && (forall j :: 0 <= j < k && Begins(events[j], g) ==> g in s.order && s.order[g] == events[j].order)
  {
    hide Step, Enabled, RunInv, Makes, Uploads, Loses, Begins;
    if k > 0 {
      HistoryIs(states, events, k - 1, m, g);
      RunKeeps(states, events, k - 1);
      StepRecords(states[k - 1], events[k - 1], m, g);
      var e := events[k - 1];
      assert Records(states[k - 1], e, states[k], m, g);
    }
  }

  // ----- how long an album that went out is kept

  predicate Sent(s: State, g: GroupId) {
    g in s.albums && s.albums[g].sent
  }

  /** Several medias of album `g` are handed over between `s` and `t`. */
  predicate HandsSeveral(s: State, t: State, g: GroupId) {
    |t.handed| > |s.handed| && t.handed[|t.handed| - 1].group == g && !t.handed[|t.handed| - 1].single
  }

  predicate Finishes(e: Event, g: GroupId) {
    e.Over? && e.group == g
  }

  lemma ReadySent(u: State, g: GroupId)
    ensures var t := IfReady(u, g);
      Sent(t, g) <==> HandsSeveral(u, t, g) || Sent(u, g)
  {
    hide Filled, Medias;
  }

  lemma SentStep(s: State, e: Event, g: GroupId)
    requires RunInv(s) && Enabled(s, e)
    ensures var t := Step(s, e);
      Sent(t, g) <==> HandsSeveral(s, t, g) || (Sent(s, g) && !Finishes(e, g))
  {
    if e.group == g {
      SentOwn(s, e);
    } else {
      hide RunInv, Enabled, Step, SameFor, Local, HandsOver;
      SentOther(s, e, g);
      if g in s.order {
        OthersSame(s, e, g);
        SentSame(s, Step(s, e), g);
      } else {
        NotBegan(s, e, g);
      }
    }
  }

  lemma SentSame(s: State, t: State, g: GroupId)
    requires SameFor(s, t, g)
    ensures Sent(t, g) <==> Sent(s, g)
  {
    hide Handed, SameItem;
  }

  lemma SentOther(s: State, e: Event, g: GroupId)
    requires RunInv(s) && Enabled(s, e) && e.group != g
    ensures !HandsSeveral(s, Step(s, e), g)
  {
    hide RunInv, Enabled, Step, SameItem;
    if e.Began? {
      StepBegan(s, e);
    } else {
      StepLocal(s, e);
    }
  }

  lemma SentOwn(s: State, e: Event)
    requires RunInv(s) && Enabled(s, e)
    ensures var t := Step(s, e);
      Sent(t, e.group) <==> HandsSeveral(s, t, e.group) || (Sent(s, e.group) && !Finishes(e, e.group))
  {
    hide RunInv, Find, Trim, IfReady, FillAt, Remove, Without, Distinct, Unknown;
    match e
    case Began(g, order) => BeganHolds(s, e);
    case Prepared(_, _, _) =>
    case Unprepared(_, _) =>
    case Uploaded(g, m, u) => ReadySent(Fill(s, g, m, u), g);
    case Cancelled(g, m) =>
      RemoveAtMost(s, g, m);
      ReadySent(Remove(s, g, m), g);
    case Over(_) =>
  }

  /** In every run an album of several is kept, as sent, from its hand-over to its answer. */
  lemma SentIff(states: seq<State>, events: seq<Event>, k: nat, g: GroupId)
    requires IsRun(states, events) && k <= |events|
    ensures var n := |events|;
      var hands := seq(n, i requires 0 <= i < n => HandsSeveral(states[i], states[i + 1], g));
      var over := seq(n, i requires 0 <= i < n => Finishes(events[i], g));
      Sent(states[k], g) <==> OnSince(hands, over, k)
  {
    hide RunInv, Step, Enabled, Finishes, HandsSeveral, OnSince;
    var n := |events|;
    var hands := seq(n, i requires 0 <= i < n => HandsSeveral(states[i], states[i + 1], g));
    var over := seq(n, i requires 0 <= i < n => Finishes(events[i], g));
    var sent := seq(n + 1, i requires 0 <= i <= n => Sent(states[i], g));
    forall i | 0 <= i < n ensures sent[i + 1] <==> hands[i] || (sent[i] && !over[i]) {
      RunKeeps(states, events, i);
      SentStep(states[i], events[i], g);
    }
    SwitchIs(sent, hands, over, k);
  }
}
