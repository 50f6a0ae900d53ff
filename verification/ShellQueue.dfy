/**
 * The event queue of the web-view shell (`page.js`): events posted to the framed page wait until the frame
 * has loaded, reloads and replacements change which frame that is, and a load lets the queue go.
 */
module ShellQueue {
  import opened Since
  import opened Text

  const MAX_PENDING := 64

  /** A frame element is named by the generation it was created for. */
  type Generation = nat

  /** Events are numbered in the order they are posted. */
  datatype Queued = Queued(n: nat, generation: Generation)

  datatype Delivery = Delivery(n: nat, generation: Generation, target: string)

  /** `gens` (the generation each event was posted in), `delivered` and `reloads` (the frames asked to reload)
      are history. */
  datatype State = State(
    frame: Option<Generation>, src: string, frameLoaded: bool, frameGeneration: Generation, pendingEvents: seq<Queued>,
    reloadSupported: bool, reloadTimeout: bool, frameUrl: string, sameOrigin: bool, frameOrigin: string,
    gens: seq<Generation>, delivered: seq<Delivery>, reloads: seq<Generation>)

  const BLANK := "about:blank"
  const START: State := State(None, "", false, 0, [], false, false, BLANK, false, "", [], [], [])

  // ----- what each handler does

  /** There is a target origin to post to. */
  predicate Usable(s: State) {
    !(s.sameOrigin && s.frameOrigin == "")
  }

  function Target(s: State): string {
    if s.sameOrigin then s.frameOrigin else "*"
  }

  function Send(s: State, e: Queued): State {
    if s.frame.None? || e.generation != s.frameGeneration || !Usable(s) then s
    else s.(delivered := s.delivered + [Delivery(e.n, e.generation, Target(s))])
  }

  /** What stays of a queue that grew too long. */
  function Newest(queue: seq<Queued>): seq<Queued> {
    if |queue| > MAX_PENDING then queue[|queue| - MAX_PENDING..] else queue
  }

  function Post(s: State): State {
    var e := Queued(|s.gens|, s.frameGeneration);
    var t := s.(gens := s.gens + [s.frameGeneration]);
    if s.frame.None? || !s.frameLoaded then t.(pendingEvents := Newest(s.pendingEvents + [e])) else Send(t, e)
  }

  function SendFirst(s: State, queue: seq<Queued>, k: nat): State
    requires k <= |queue|
  {
    if k == 0 then s
    else
      var t := SendFirst(s, queue, k - 1);
      if queue[k - 1].generation == t.frameGeneration then Send(t, queue[k - 1]) else t
  }

  function Flush(s: State): State {
    SendFirst(s.(pendingEvents := []), s.pendingEvents, |s.pendingEvents|)
  }

  function Create(s: State, url: string): State {
    var generation := s.frameGeneration + 1;
    s.(reloadTimeout := false, frameGeneration := generation, pendingEvents := [], frameLoaded := false,
       reloadSupported := false, frame := Some(generation), src := if url == "" then BLANK else url)
  }

  function Fallback(s: State): State {
    Create(s, if s.frameUrl == "" then BLANK else s.frameUrl)
  }

  /** The load event of the frame created for `generation`. */
  function Load(s: State, generation: Generation): State {
    if s.frame != Some(generation) || generation != s.frameGeneration then s else Flush(s.(frameLoaded := true))
  }

  function Reload(s: State): State {
    if s.frame.None? then s
    else if s.reloadSupported && s.frameLoaded then
      (if Usable(s) then s.(reloads := s.reloads + [s.frameGeneration]) else s).(reloadTimeout := true)
    else Fallback(s)
  }

  datatype Said = Ready(reloadSupported: bool) | WillReload | Other

  /** A message from a frame with some origin; only the current frame is listened to. */
  function Hear(s: State, from: Generation, origin: string, said: Said): State {
    if s.frame != Some(from) || (s.sameOrigin && (s.frameOrigin == "" || origin != s.frameOrigin)) then s
    else
      match said
      case Ready(supported) => s.(reloadSupported := supported)
      case WillReload => s.(reloadTimeout := false, frameLoaded := false)
      case Other => s
  }

  function Bootstrap(s: State, url: string, sameOrigin: bool, origin: string): State {
    var u := if url == "" then BLANK else url;
    Create(s.(sameOrigin := sameOrigin, frameUrl := u, frameOrigin := if sameOrigin then origin else ""), u)
  }

  datatype Event =
    | Bootstrapped(url: string, sameOrigin: bool, origin: string)
    | Posted
    | Loaded(generation: Generation)
    | Heard(from: Generation, origin: string, said: Said)
    | ReloadAsked
    | TimedOut

  /** The timeout can only fire while it is set. */
  predicate Enabled(s: State, e: Event) {
    e.TimedOut? ==> s.reloadTimeout
  }

  function Step(s: State, e: Event): State {
    match e
    case Bootstrapped(url, sameOrigin, origin) => Bootstrap(s, url, sameOrigin, origin)
    case Posted => Post(s)
    case Loaded(generation) => Load(s, generation)
    case Heard(from, origin, said) => Hear(s, from, origin, said)
    case ReloadAsked => Reload(s)
    case TimedOut => Fallback(s.(reloadTimeout := false))
  }

  // ----- the page itself

  class Shell {
    var iframe: Option<Generation>
    var src: string
    var frameLoaded: bool
    var frameGeneration: Generation
    var pendingEvents: seq<Queued>
    var reloadSupported: bool
    var reloadTimeout: bool
    var frameUrl: string
    var sameOrigin: bool
    var frameOrigin: string
    ghost var gens: seq<Generation>
    ghost var delivered: seq<Delivery>
    ghost var reloads: seq<Generation>
    var posted: nat

    ghost function Now(): State reads this {
      State(iframe, src, frameLoaded, frameGeneration, pendingEvents, reloadSupported, reloadTimeout, frameUrl,
            sameOrigin, frameOrigin, gens, delivered, reloads)
    }

    /** `posted` only numbers the events. */
    ghost predicate Valid() reads this {
      posted == |gens|
    }

    constructor ()
      ensures Valid() && Now() == START
    {
      iframe, src, frameLoaded, frameGeneration, pendingEvents := None, "", false, 0, [];
      reloadSupported, reloadTimeout, frameUrl, sameOrigin, frameOrigin := false, false, BLANK, false, "";
      gens, delivered, reloads, posted := [], [], [], 0;
    }

    method SendToFrame(n: nat, generation: Generation)
      modifies this`delivered
      ensures Now() == Send(old(Now()), Queued(n, generation))
    {
      if iframe.None? || generation != frameGeneration { return; }
      if sameOrigin && frameOrigin == "" { return; }
      var targetOrigin := if sameOrigin then frameOrigin else "*";
      delivered := delivered + [Delivery(n, generation, targetOrigin)];
    }

    method PostToFrame()
      requires Valid()
      modifies this
      ensures Valid() && Now() == Post(old(Now()))
    {
      var generation := frameGeneration;
      var n := posted;
      posted, gens := posted + 1, gens + [generation];
      if iframe.None? || !frameLoaded {
        pendingEvents := pendingEvents + [Queued(n, generation)];
        ghost var all := pendingEvents;
        ghost var dropped := 0;
        while |pendingEvents| > MAX_PENDING
          invariant dropped <= |all| && pendingEvents == all[dropped..]
          invariant dropped == 0 || |pendingEvents| >= MAX_PENDING
          invariant Valid() && Now() == old(Now()).(gens := old(gens) + [generation], pendingEvents := pendingEvents)
        {
          pendingEvents := pendingEvents[1..];
          dropped := dropped + 1;
        }
        return;
      }
      SendToFrame(n, generation);
    }

    method FlushPendingEvents()
      modifies this`pendingEvents, this`delivered
      ensures Now() == Flush(old(Now()))
    {
      hide Send;
      var pending := pendingEvents;
      pendingEvents := [];
      ghost var start := Now();
      for k := 0 to |pending|
        invariant Now() == SendFirst(start, pending, k)
      {
        if pending[k].generation == frameGeneration {
          SendToFrame(pending[k].n, pending[k].generation);
        }
      }
    }

    method CreateIframe(url: string)
      modifies this
      ensures Now() == Create(old(Now()), url) && posted == old(posted)
    {
      if reloadTimeout { reloadTimeout := false; }
      frameGeneration := frameGeneration + 1;
      var generation := frameGeneration;
      pendingEvents := [];
      frameLoaded := false;
      reloadSupported := false;
      iframe := Some(generation);
      src := if url == "" then BLANK else url;
    }

    /** The load listener of the frame created for `generation`. */
    method OnLoad(generation: Generation)
      requires Valid()
      modifies this
      ensures Valid() && Now() == Load(old(Now()), generation)
    {
      if iframe != Some(generation) || generation != frameGeneration { return; }
      frameLoaded := true;
      FlushPendingEvents();
      SendFirstOnlySends(old(Now()).(frameLoaded := true, pendingEvents := []), old(pendingEvents), |old(pendingEvents)|);
    }

    method OnMessage(from: Generation, origin: string, said: Said)
      requires Valid()
      modifies this
      ensures Valid() && Now() == Hear(old(Now()), from, origin, said)
    {
      if iframe != Some(from) { return; }
      if sameOrigin && (frameOrigin == "" || origin != frameOrigin) { return; }
      match said {
        case Ready(supported) => reloadSupported := supported;
        case WillReload =>
          if reloadTimeout { reloadTimeout := false; }
          frameLoaded := false;
        case Other =>
      }
    }

    method ReloadFrame()
      requires Valid()
      modifies this
      ensures Valid() && Now() == Reload(old(Now()))
    {
      if iframe.None? { return; }
      if reloadSupported && frameLoaded {
        if !(sameOrigin && frameOrigin == "") { reloads := reloads + [frameGeneration]; }
        reloadTimeout := true;
        return;
      }
      CreateIframe(if frameUrl == "" then BLANK else frameUrl);
    }

    method OnReloadTimeout()
      requires Valid() && reloadTimeout
      modifies this
      ensures Valid() && Now() == Step(old(Now()), TimedOut)
    {
      reloadTimeout := false;
      CreateIframe(if frameUrl == "" then BLANK else frameUrl);
    }

    method OnBootstrap(url: string, same: bool, origin: string)
      requires Valid()
      modifies this
      ensures Valid() && Now() == Bootstrap(old(Now()), url, same, origin)
    {
      sameOrigin := same;
      frameUrl := if url == "" then BLANK else url;
      frameOrigin := if sameOrigin then origin else "";
      CreateIframe(frameUrl);
    }
  }

  lemma {:induction false} SendFirstOnlySends(s: State, queue: seq<Queued>, k: nat)
    requires k <= |queue|
    ensures SendFirst(s, queue, k) == s.(delivered := SendFirst(s, queue, k).delivered)
  {
    if k > 0 {
      SendFirstOnlySends(s, queue, k - 1);
    }
  }

  // ----- the invariant

  /** The queue holds the latest events, in order, all of the current generation. */
  ghost predicate Queues(s: State) {
    && |s.pendingEvents| <= MAX_PENDING && |s.pendingEvents| <= |s.gens|
    && forall i :: 0 <= i < |s.pendingEvents| ==>
         && s.pendingEvents[i] == Queued(|s.gens| - |s.pendingEvents| + i, s.frameGeneration)
         && s.gens[s.pendingEvents[i].n] == s.frameGeneration
  }

  /** What was delivered came before event `next`, in order, each to the generation it was posted for. */
  ghost predicate Delivered(s: State, next: int) {
    && (forall i :: 0 <= i < |s.delivered| ==>
          s.delivered[i].n < next <= |s.gens| && s.gens[s.delivered[i].n] == s.delivered[i].generation)
    && (forall i, j :: 0 <= i < j < |s.delivered| ==> s.delivered[i].n < s.delivered[j].n)
    && forall i :: 0 <= i < |s.gens| ==> s.gens[i] <= s.frameGeneration
  }

  ghost predicate Inv(s: State) {
    && (s.frame.Some? ==> s.frame == Some(s.frameGeneration))
    && (s.frameLoaded ==> s.frame.Some? && s.pendingEvents == [])
    && Queues(s) && Delivered(s, |s.gens| - |s.pendingEvents|)
  }

  /** Everything in the queue goes out in order when it can go out at all. */
  function Deliveries(s: State, queue: seq<Queued>, k: nat): seq<Delivery>
    requires k <= |queue|
  {
    if k == 0 then [] else Deliveries(s, queue, k - 1) + [Delivery(queue[k - 1].n, queue[k - 1].generation, Target(s))]
  }

  lemma {:induction false} SendFirstSends(s: State, queue: seq<Queued>, k: nat)
    requires k <= |queue| && s.frame.Some? && forall i :: 0 <= i < |queue| ==> queue[i].generation == s.frameGeneration
    ensures SendFirst(s, queue, k) == s.(delivered := s.delivered + if Usable(s) then Deliveries(s, queue, k) else [])
  {
    if k > 0 {
      SendFirstSends(s, queue, k - 1);
    }
  }

  lemma {:induction false} DeliveriesAt(s: State, queue: seq<Queued>, k: nat, i: nat)
    requires i < k <= |queue|
    ensures |Deliveries(s, queue, k)| == k
    ensures Deliveries(s, queue, k)[i] == Delivery(queue[i].n, queue[i].generation, Target(s))
  {
    if i < k - 1 {
      DeliveriesAt(s, queue, k - 1, i);
    } else if k > 1 {
      DeliveriesAt(s, queue, k - 1, 0);
    }
  }

  lemma QueueMore(s: State)
    requires Queues(s)
    ensures var e := Queued(|s.gens|, s.frameGeneration);
      Queues(s.(gens := s.gens + [s.frameGeneration], pendingEvents := Newest(s.pendingEvents + [e])))
  {
    var e := Queued(|s.gens|, s.frameGeneration);
    var t := s.(gens := s.gens + [s.frameGeneration], pendingEvents := Newest(s.pendingEvents + [e]));
    var queue, n := t.pendingEvents, |s.pendingEvents|;
    assert |queue| == if n < MAX_PENDING then n + 1 else n;
    forall i | 0 <= i < |queue|
      ensures queue[i] == Queued(|t.gens| - |queue| + i, s.frameGeneration) && t.gens[queue[i].n] == s.frameGeneration
    {
      var j := i + n + 1 - |queue|;
      assert queue[i] == (s.pendingEvents + [e])[j];
      if j < n { assert queue[i] == s.pendingEvents[j]; }
    }
  }

  lemma DeliveredMore(s: State, next: int, t: State, next': int)
    requires Delivered(s, next) && next <= next' <= |t.gens|
    requires t.gens == s.gens + [s.frameGeneration] && t.frameGeneration == s.frameGeneration
    requires t.delivered == s.delivered
    ensures Delivered(t, next')
  {
  }

  lemma DeliveredOne(s: State, d: Delivery)
    requires Delivered(s, |s.gens| - 1) && d.n == |s.gens| - 1 && s.gens[d.n] == d.generation
    ensures Delivered(s.(delivered := s.delivered + [d]), |s.gens|)
  {
  }

  lemma PostWaits(s: State)
    requires Inv(s) && !s.frameLoaded
    ensures Inv(Post(s))
  {
    hide Queues, Delivered, Newest, Send;
    QueueMore(s);
    QueueFits(s);
    QueueFits(Post(s));
    NewestSize(s.pendingEvents, Queued(|s.gens|, s.frameGeneration));
    DeliveredMore(s, |s.gens| - |s.pendingEvents|, Post(s), |s.gens| + 1 - |Post(s).pendingEvents|);
  }

  lemma NewestSize(queue: seq<Queued>, e: Queued)
    ensures |Newest(queue + [e])| <= |queue| + 1
  {
  }

  lemma PostGoes(s: State)
    requires Inv(s) && s.frameLoaded
    ensures Inv(Post(s))
  {
    hide Usable, Target, Queues, Delivered, Newest;
    var t := s.(gens := s.gens + [s.frameGeneration]);
    QueueEmpty(Post(s));
    DeliveredMore(s, |s.gens|, t, |s.gens|);
    DeliveredOne(t, Delivery(|s.gens|, s.frameGeneration, Target(t)));
    DeliveredMore(s, |s.gens|, t, |s.gens| + 1);
  }

  lemma PostKeeps(s: State)
    requires Inv(s)
    ensures Inv(Post(s))
  {
    hide Inv, Post;
    if s.frameLoaded { PostGoes(s); } else { PostWaits(s); }
  }

  lemma QueueEmpty(s: State)
    requires s.pendingEvents == []
    ensures Queues(s)
  {
  }

  lemma LoadDelivers(s: State)
    requires Inv(s) && s.frame.Some?
    ensures var t := Load(s, s.frameGeneration);
      t == s.(frameLoaded := true, pendingEvents := [],
              delivered := s.delivered + if Usable(s) then Deliveries(s, s.pendingEvents, |s.pendingEvents|) else [])
  {
    hide Deliveries;
    var u := s.(frameLoaded := true, pendingEvents := []);
    SendFirstSends(u, s.pendingEvents, |s.pendingEvents|);
    DeliveriesSame(s, u, s.pendingEvents, |s.pendingEvents|);
  }

  lemma {:induction false} DeliveriesSame(s: State, t: State, queue: seq<Queued>, k: nat)
    requires k <= |queue| && Target(s) == Target(t)
    ensures Deliveries(s, queue, k) == Deliveries(t, queue, k)
  {
    if k > 0 {
      DeliveriesSame(s, t, queue, k - 1);
    }
  }

  lemma DeliveredQueue(s: State)
    requires Inv(s)
    ensures Delivered(s.(delivered := s.delivered + Deliveries(s, s.pendingEvents, |s.pendingEvents|)), |s.gens|)
  {
    hide Deliveries, Target;
    var n := |s.pendingEvents|;
    var more := Deliveries(s, s.pendingEvents, n);
    SizeOfDeliveries(s, s.pendingEvents, n);
    forall i | 0 <= i < n
      ensures more[i].n == |s.gens| - n + i && more[i].generation == s.frameGeneration
      ensures s.gens[more[i].n] == s.frameGeneration
    {
      DeliveriesAt(s, s.pendingEvents, n, i);
    }
  }

  /** Nothing the queue and the history depend on has changed. */
  lemma SameHistory(s: State, next: int, t: State, next': int)
    requires Delivered(s, next) && next <= next' <= |s.gens|
    requires t.gens == s.gens && t.delivered == s.delivered && t.frameGeneration >= s.frameGeneration
    ensures Delivered(t, next')
  {
  }

  lemma SameQueue(s: State, t: State)
    requires Queues(s) && t.gens == s.gens && t.pendingEvents == s.pendingEvents && t.frameGeneration == s.frameGeneration
    ensures Queues(t)
  {
  }

  lemma QueueFits(s: State)
    requires Queues(s)
    ensures |s.pendingEvents| <= |s.gens|
  {
  }

  lemma LoadKeeps(s: State, generation: Generation)
    requires Inv(s)
    ensures Inv(Load(s, generation))
  {
    hide Flush, Deliveries, Usable, Queues, Delivered;
    if s.frame == Some(generation) {
      var t := Load(s, generation);
      LoadDelivers(s);
      hide Load;
      QueueFits(s);
      QueueEmpty(t);
      DeliveredQueue(s);
      var sent := s.(delivered := s.delivered + Deliveries(s, s.pendingEvents, |s.pendingEvents|));
      if Usable(s) {
        SameHistory(sent, |s.gens|, t, |s.gens|);
      } else {
        SameHistory(s, |s.gens| - |s.pendingEvents|, t, |s.gens|);
      }
    }
  }

  lemma CreateKeeps(s: State, u: State, url: string)
    requires Inv(s) && u.gens == s.gens && u.delivered == s.delivered && u.frameGeneration == s.frameGeneration
    ensures Inv(Create(u, url))
  {
    hide Queues, Delivered;
    QueueFits(s);
    QueueEmpty(Create(u, url));
    SameHistory(s, |s.gens| - |s.pendingEvents|, Create(u, url), |s.gens|);
  }

  lemma FlagsKeep(s: State, t: State)
    requires Inv(s)
    requires t == s.(reloadSupported := t.reloadSupported, reloadTimeout := t.reloadTimeout,
                     frameLoaded := t.frameLoaded, reloads := t.reloads)
    requires t.frameLoaded ==> s.frameLoaded
    ensures Inv(t)
  {
    hide Queues, Delivered;
    QueueFits(s);
    SameQueue(s, t);
    SameHistory(s, |s.gens| - |s.pendingEvents|, t, |s.gens| - |s.pendingEvents|);
  }

  lemma StepKeeps(s: State, e: Event)
    requires Inv(s)
    ensures Inv(Step(s, e))
  {
    hide Post, Load, Create, Inv;
    match e
    case Bootstrapped(url, sameOrigin, origin) =>
      var u := if url == "" then BLANK else url;
      CreateKeeps(s, s.(sameOrigin := sameOrigin, frameUrl := u, frameOrigin := if sameOrigin then origin else ""), u);
    case Posted => PostKeeps(s);
    case Loaded(generation) => LoadKeeps(s, generation);
    case Heard(from, origin, said) => FlagsKeep(s, Hear(s, from, origin, said));
    case ReloadAsked =>
      if s.frame.Some? && !(s.reloadSupported && s.frameLoaded) {
        CreateKeeps(s, s, if s.frameUrl == "" then BLANK else s.frameUrl);
      } else {
        FlagsKeep(s, Reload(s));
      }
    case TimedOut => CreateKeeps(s, s.(reloadTimeout := false), if s.frameUrl == "" then BLANK else s.frameUrl);
  }

  // ----- whole runs

  ghost predicate IsRun(states: seq<State>, events: seq<Event>) {
    && |states| == |events| + 1 && states[0] == START
    && forall i :: 0 <= i < |events| ==> Enabled(states[i], events[i]) && states[i + 1] == Step(states[i], events[i])
  }

  lemma {:induction false} RunKeeps(states: seq<State>, events: seq<Event>, k: nat)
    requires IsRun(states, events) && k <= |events|
    ensures Inv(states[k])
  {
    if k > 0 {
      RunKeeps(states, events, k - 1);
      hide Inv, Step;
      StepKeeps(states[k - 1], events[k - 1]);
    }
  }

  /** A loaded frame has nothing waiting, the queue never holds more than 64, and what it holds was posted for
      the frame there is now, latest last. */
  lemma QueueIsBounded(states: seq<State>, events: seq<Event>, k: nat, i: nat, j: nat)
    requires IsRun(states, events) && k <= |events|
    ensures var s := states[k];
      && (s.frameLoaded ==> s.pendingEvents == [] && s.frame == Some(s.frameGeneration))
      && |s.pendingEvents| <= 64
      && (i < j < |s.pendingEvents| ==> s.pendingEvents[i].n < s.pendingEvents[j].n)
      && (i < |s.pendingEvents| ==>
            s.pendingEvents[i].generation == s.frameGeneration && s.pendingEvents[i].n < |s.gens|
            && s.gens[s.pendingEvents[i].n] == s.frameGeneration)
  {
    RunKeeps(states, events, k);
  }

  /** Deliveries follow the order of posting, so none is repeated, and each went to the generation it was posted
      in and came before everything still waiting. */
  lemma DeliveredInOrder(states: seq<State>, events: seq<Event>, k: nat, i: nat, j: nat)
    requires IsRun(states, events) && k <= |events| && j < |states[k].delivered|
    ensures var s := states[k];
      && (i < j ==> s.delivered[i].n < s.delivered[j].n)
      && s.delivered[j].n < |s.gens| && s.gens[s.delivered[j].n] == s.delivered[j].generation
      && (i < |s.pendingEvents| ==> s.delivered[j].n < s.pendingEvents[i].n)
  {
    RunKeeps(states, events, k);
  }

  /** What step `e` delivers. */
  function News(s: State, e: Event): seq<Delivery> {
    if s.frame.None? || !Usable(s) then []
    else if e.Posted? && s.frameLoaded then [Delivery(|s.gens|, s.frameGeneration, Target(s))]
    else if e.Loaded? && s.frame == Some(e.generation) then Deliveries(s, s.pendingEvents, |s.pendingEvents|)
    else []
  }

  lemma StepDelivers(s: State, e: Event)
    requires Inv(s)
    ensures Step(s, e).delivered == s.delivered + News(s, e)
  {
    hide Deliveries, Queues, Delivered;
    if e.Loaded? && s.frame == Some(e.generation) {
      LoadDelivers(s);
      hide Load;
    }
  }

  /** A step delivers only to the frame there was, and takes back nothing. */
  lemma DeliversToCurrent(states: seq<State>, events: seq<Event>, k: nat, j: nat)
    requires IsRun(states, events) && k < |events| && j < |states[k + 1].delivered|
    ensures var s, t := states[k], states[k + 1];
      && |s.delivered| <= |t.delivered|
      && if j < |s.delivered| then t.delivered[j] == s.delivered[j]
         else t.delivered[j].generation == s.frameGeneration && s.frame == Some(s.frameGeneration)
              && t.delivered[j].target == (if s.sameOrigin then s.frameOrigin else "*") && t.delivered[j].target != ""
  {
    RunKeeps(states, events, k);
    var s, e := states[k], events[k];
    StepDelivers(s, e);
    assert states[k + 1] == Step(s, e);
    hide Step, Usable, Target, Deliveries;
    if j >= |s.delivered| && e.Loaded? {
      SizeOfDeliveries(s, s.pendingEvents, |s.pendingEvents|);
      DeliveriesAt(s, s.pendingEvents, |s.pendingEvents|, j - |s.delivered|);
    }
  }

  lemma {:induction false} SizeOfDeliveries(s: State, queue: seq<Queued>, k: nat)
    requires k <= |queue|
    ensures |Deliveries(s, queue, k)| == k
  {
    if k > 0 {
      SizeOfDeliveries(s, queue, k - 1);
    }
  }

  // ----- what can be lost

  predicate Waits(s: State, n: nat) {
    exists i :: 0 <= i < |s.pendingEvents| && s.pendingEvents[i].n == n
  }

  predicate Sent(s: State, n: nat) {
    exists i :: 0 <= i < |s.delivered| && s.delivered[i].n == n
  }

  /** The three ways to lose event `n`: it is the oldest in a full queue that takes another, the frame it waits
      for is replaced, or its turn to be sent comes and there is no origin to send to. */
  predicate LosesTo(s: State, e: Event, t: State, n: nat) {
    || (e.Posted? && !s.frameLoaded && |s.pendingEvents| == 64 && s.pendingEvents[0].n == n)
    || (n < |s.gens| && s.gens[n] == s.frameGeneration && t.frameGeneration > s.frameGeneration)
    || (s.sameOrigin && s.frameOrigin == "" && e.Posted? && s.frameLoaded && n == |s.gens|)
    || (s.sameOrigin && s.frameOrigin == "" && e.Loaded? && s.frame == Some(e.generation) && n < |s.gens|)
  }

  /** Event `n` is to be delivered still, or is posted by this very step. */
  predicate InPlay(s: State, e: Event, n: nat) {
    Waits(s, n) || (e.Posted? && n == |s.gens|)
  }

  lemma WaitsIff(s: State, n: nat)
    requires Inv(s)
    ensures Waits(s, n) <==> |s.gens| - |s.pendingEvents| <= n < |s.gens|
  {
    if |s.gens| - |s.pendingEvents| <= n < |s.gens| {
      assert s.pendingEvents[n - (|s.gens| - |s.pendingEvents|)].n == n;
    }
  }

  /** Nothing delivered before still waits. */
  lemma WaitsIsNotSent(s: State, n: nat)
    requires Inv(s) && (Waits(s, n) || n >= |s.gens|)
    ensures !Sent(s, n)
  {
    WaitsIff(s, n);
  }

  lemma SentIff(s: State, e: Event, n: nat)
    requires Inv(s) && InPlay(s, e, n)
    ensures Sent(Step(s, e), n) <==> exists i :: 0 <= i < |News(s, e)| && News(s, e)[i].n == n
  {
    hide Step, News, Waits, Inv;
    StepDelivers(s, e);
    WaitsIsNotSent(s, n);
    var t, news := Step(s, e), News(s, e);
    if Sent(t, n) {
      var i :| 0 <= i < |t.delivered| && t.delivered[i].n == n;
      assert forall j :: 0 <= j < |s.delivered| ==> t.delivered[j] == s.delivered[j];
      assert i >= |s.delivered|;
      assert news[i - |s.delivered|] == t.delivered[i];
    }
    if i :| 0 <= i < |news| && news[i].n == n {
      assert t.delivered[|s.delivered| + i].n == n;
    }
  }

  lemma UsableIff(s: State)
    ensures Usable(s) <==> !(s.sameOrigin && s.frameOrigin == "")
  {
  }

  lemma PostLoses(s: State, n: nat)
    requires Inv(s) && InPlay(s, Posted, n)
    ensures var t := Post(s);
      Waits(t, n) || Sent(t, n) <==> !LosesTo(s, Posted, t, n)
  {
    hide Target, Usable;
    UsableIff(s);
    var t := Post(s);
    PostKeeps(s);
    SentIff(s, Posted, n);
    WaitsIff(s, n);
    WaitsIff(t, n);
    if s.frameLoaded && Usable(s) {
      assert News(s, Posted)[0].n == |s.gens|;
    }
  }

  lemma LoadLoses(s: State, generation: Generation, n: nat)
    requires Inv(s) && Waits(s, n)
    ensures var t := Load(s, generation);
      Waits(t, n) || Sent(t, n) <==> !LosesTo(s, Loaded(generation), t, n)
  {
    hide Flush, Target, Usable, Deliveries;
    UsableIff(s);
    var t := Load(s, generation);
    SentIff(s, Loaded(generation), n);
    WaitsIff(s, n);
    LoadKeeps(s, generation);
    WaitsIff(t, n);
    if s.frame == Some(generation) {
      LoadDelivers(s);
      hide Load;
      var i :| 0 <= i < |s.pendingEvents| && s.pendingEvents[i].n == n;
      DeliveriesAt(s, s.pendingEvents, |s.pendingEvents|, i);
      assert Usable(s) ==> News(s, Loaded(generation))[i].n == n;
    }
  }

  /** A step loses an event exactly when one of the three happens to it. */
  lemma StepLoses(s: State, e: Event, n: nat)
    requires Inv(s) && InPlay(s, e, n)
    ensures Waits(Step(s, e), n) || Sent(Step(s, e), n) <==> !LosesTo(s, e, Step(s, e), n)
  {
    hide Post, Load, Usable, Target;
    match e
    case Posted => PostLoses(s, n);
    case Loaded(generation) => LoadLoses(s, generation, n);
    case _ =>
      SentIff(s, e, n);
      StepKeeps(s, e);
      WaitsIff(s, n);
      WaitsIff(Step(s, e), n);
  }

  lemma GensGrow(s: State, e: Event)
    ensures |Step(s, e).gens| == |s.gens| + if e.Posted? then 1 else 0
  {
    if e.Loaded? {
      SendFirstOnlySends(s.(frameLoaded := true, pendingEvents := []), s.pendingEvents, |s.pendingEvents|);
    }
  }

  /** Every event posted so far waits, was delivered, or was lost at a step where one of the three happened to it
      while it was waiting or being posted. */
  lemma {:induction false} LostOnlySo(states: seq<State>, events: seq<Event>, k: nat, n: nat)
    requires IsRun(states, events) && k <= |events| && n < |states[k].gens|
    ensures Waits(states[k], n) || Sent(states[k], n)
      || exists j :: 0 <= j < k && InPlay(states[j], events[j], n) && LosesTo(states[j], events[j], states[j + 1], n)
  {
    hide Inv, Step, LosesTo, Waits;
    if k > 0 {
      RunKeeps(states, events, k - 1);
      var s, e, t := states[k - 1], events[k - 1], states[k];
      assert t == Step(s, e);
      GensGrow(s, e);
      if n < |s.gens| {
        LostOnlySo(states, events, k - 1, n);
      }
      if InPlay(s, e, n) {
        StepLoses(s, e, n);
        assert LosesTo(s, e, t, n) ==> LosesTo(states[k - 1], events[k - 1], states[k - 1 + 1], n);
      } else if Sent(s, n) {
        var i :| 0 <= i < |s.delivered| && s.delivered[i].n == n;
        DeliveredStays(states, events, k - 1, i);
        assert t.delivered[i].n == n;
      }
    }
  }

  lemma DeliveredStays(states: seq<State>, events: seq<Event>, k: nat, i: nat)
    requires IsRun(states, events) && k < |events| && i < |states[k].delivered|
    ensures i < |states[k + 1].delivered| && states[k + 1].delivered[i] == states[k].delivered[i]
  {
    RunKeeps(states, events, k);
    StepDelivers(states[k], events[k]);
    assert states[k + 1] == Step(states[k], events[k]);
    hide Step, News;
  }

  // ----- the frame, its address and its gate, told from the events

  /** Who is listened to: the frame there is, and for a page of its own origin from that origin only. */
  predicate Listens(s: State, from: Generation, origin: string) {
    s.frame == Some(from) && (s.sameOrigin ==> s.frameOrigin != "" && origin == s.frameOrigin)
  }

  /** The frame says that it is about to reload. */
  predicate Notices(s: State, e: Event) {
    e.Heard? && e.said == WillReload && Listens(s, e.from, e.origin)
  }

  /** A reload is asked of a frame that can. */
  predicate AsksFrame(s: State, e: Event) {
    e.ReloadAsked? && s.frame.Some? && s.reloadSupported && s.frameLoaded
  }

  predicate Replaces(s: State, e: Event) {
    || e.Bootstrapped? || e.TimedOut?
    || (e.ReloadAsked? && s.frame.Some? && !(s.reloadSupported && s.frameLoaded))
  }

  predicate Says(s: State, e: Event, supported: bool) {
    e.Heard? && e.said == Ready(supported) && Listens(s, e.from, e.origin)
  }

  predicate Opens(s: State, e: Event) {
    e.Loaded? && s.frame == Some(e.generation)
  }

  /** What any event does to the frame: when it is replaced, when its gate opens and closes, when the timeout is set
      and stopped, what it is asked, and where its address comes from. */
  lemma StepSays(s: State, e: Event)
    requires Inv(s)
    ensures var t := Step(s, e);
      && t.frameGeneration == s.frameGeneration + (if Replaces(s, e) then 1 else 0)
      && (t.frame.Some? <==> s.frame.Some? || Replaces(s, e))
      && (t.frameLoaded <==> Opens(s, e) || (s.frameLoaded && !Notices(s, e) && !Replaces(s, e)))
      && (t.reloadTimeout <==> AsksFrame(s, e) || (s.reloadTimeout && !Notices(s, e) && !Replaces(s, e)))
      && (t.reloadSupported
          <==> Says(s, e, true) || (s.reloadSupported && !Says(s, e, false) && !Replaces(s, e)))
    ensures Step(s, e).reloads == s.reloads
      + if AsksFrame(s, e) && (s.sameOrigin ==> s.frameOrigin != "") then [s.frameGeneration] else []
  {
    hide Inv, Post, Load, Hear, Reload, Create;
    if e.Bootstrapped? || e.TimedOut? { CreateSays(s, e); }
    if e.Loaded? { LoadOnlySends(s, e.generation); }
    if e.Posted? { PostOnlySends(s); }
    if e.Heard? { HearSays(s, e.from, e.origin, e.said); }
    if e.ReloadAsked? { ReloadSays(s); }
  }

  lemma CreateSays(s: State, e: Event)
    requires e.Bootstrapped? || e.TimedOut?
    ensures var t := Step(s, e);
      && t.frameGeneration == s.frameGeneration + 1 && t.frame.Some? && t.reloads == s.reloads
      && !t.frameLoaded && !t.reloadTimeout && !t.reloadSupported
  {
  }

  lemma HearSays(s: State, from: Generation, origin: string, said: Said)
    ensures var t, listens := Hear(s, from, origin, said), Listens(s, from, origin);
      && t == s.(frameLoaded := t.frameLoaded, reloadTimeout := t.reloadTimeout, reloadSupported := t.reloadSupported)
      && (t.frameLoaded <==> s.frameLoaded && !(listens && said == WillReload))
      && (t.reloadTimeout <==> s.reloadTimeout && !(listens && said == WillReload))
      && (t.reloadSupported <==> if listens && said.Ready? then said.reloadSupported else s.reloadSupported)
  {
  }

  lemma ReloadSays(s: State)
    ensures var t, asks := Reload(s), s.frame.Some? && s.reloadSupported && s.frameLoaded;
      if s.frame.None? || asks then
        && t == s.(reloadTimeout := t.reloadTimeout, reloads := t.reloads)
        && (t.reloadTimeout <==> s.reloadTimeout || asks)
        && t.reloads == s.reloads
           + if asks && (s.sameOrigin ==> s.frameOrigin != "") then [s.frameGeneration] else []
      else
        && t.reloads == s.reloads && t.frameGeneration == s.frameGeneration + 1 && t.frame.Some?
        && !t.frameLoaded && !t.reloadTimeout && !t.reloadSupported
  {
  }

  lemma LoadOnlySends(s: State, generation: Generation)
    requires Inv(s)
    ensures var t := Load(s, generation);
      t == s.(frameLoaded := s.frameLoaded || s.frame == Some(generation), pendingEvents := t.pendingEvents,
              delivered := t.delivered)
  {
    SendFirstOnlySends(s.(frameLoaded := true, pendingEvents := []), s.pendingEvents, |s.pendingEvents|);
  }

  lemma PostOnlySends(s: State)
    ensures var t := Post(s);
      t == s.(gens := t.gens, pendingEvents := t.pendingEvents, delivered := t.delivered)
  {
  }

  predicate Closes(s: State, e: Event) {
    Notices(s, e) || Replaces(s, e)
  }

  predicate Denies(s: State, e: Event) {
    Says(s, e, false) || Replaces(s, e)
  }

  /** Step by step, whether something happens there. */
  function Marks(states: seq<State>, events: seq<Event>, f: (State, Event) -> bool): (r: seq<bool>)
    requires |states| == |events| + 1
    ensures |r| == |events| && forall i :: 0 <= i < |events| ==> r[i] == f(states[i], events[i])
  {
    seq(|events|, i requires 0 <= i < |events| => f(states[i], events[i]))
  }

  lemma RunSays(states: seq<State>, events: seq<Event>, i: nat)
    requires IsRun(states, events) && i < |events|
    ensures var s, e, t := states[i], events[i], states[i + 1];
      && (t.frameLoaded <==> Opens(s, e) || (s.frameLoaded && !Closes(s, e)))
      && (t.reloadTimeout <==> AsksFrame(s, e) || (s.reloadTimeout && !Closes(s, e)))
      && (t.reloadSupported <==> Says(s, e, true) || (s.reloadSupported && !Denies(s, e)))
  {
    RunKeeps(states, events, i);
    assert states[i + 1] == Step(states[i], events[i]);
    hide Inv, Step, Opens, AsksFrame, Says, Notices, Replaces;
    StepSays(states[i], events[i]);
  }

  /** At every point of every run the gate is open exactly when the frame there is has loaded and has announced no reload
      since. */
  lemma GateIff(states: seq<State>, events: seq<Event>, k: nat)
    requires IsRun(states, events) && k <= |events|
    ensures states[k].frameLoaded <==> OnSince(Marks(states, events, Opens), Marks(states, events, Closes), k)
  {
    hide OnSince, Opens, Closes;
    var x := seq(|states|, i requires 0 <= i < |states| => states[i].frameLoaded);
    forall i | 0 <= i < |events|
      ensures x[i + 1] <==> Opens(states[i], events[i]) || (x[i] && !Closes(states[i], events[i])) {
      RunSays(states, events, i);
    }
    SwitchIs(x, Marks(states, events, Opens), Marks(states, events, Closes), k);
  }

  /** The timeout is set exactly when the frame there is was asked to reload and has not announced it since. */
  lemma TimeoutIff(states: seq<State>, events: seq<Event>, k: nat)
    requires IsRun(states, events) && k <= |events|
    ensures states[k].reloadTimeout <==> OnSince(Marks(states, events, AsksFrame), Marks(states, events, Closes), k)
  {
    hide OnSince, AsksFrame, Closes;
    var x := seq(|states|, i requires 0 <= i < |states| => states[i].reloadTimeout);
    forall i | 0 <= i < |events|
      ensures x[i + 1] <==> AsksFrame(states[i], events[i]) || (x[i] && !Closes(states[i], events[i])) {
      RunSays(states, events, i);
    }
    SwitchIs(x, Marks(states, events, AsksFrame), Marks(states, events, Closes), k);
  }

  /** The frame can reload exactly when it said so last. */
  lemma SupportedIff(states: seq<State>, events: seq<Event>, k: nat)
    requires IsRun(states, events) && k <= |events|
    ensures states[k].reloadSupported
      <==> OnSince(Marks(states, events, (s, e) => Says(s, e, true)), Marks(states, events, Denies), k)
  {
    hide OnSince, Says, Denies;
    var x := seq(|states|, i requires 0 <= i < |states| => states[i].reloadSupported);
    forall i | 0 <= i < |events|
      ensures x[i + 1] <==> Says(states[i], events[i], true) || (x[i] && !Denies(states[i], events[i])) {
      RunSays(states, events, i);
    }
    SwitchIs(x, Marks(states, events, (s, e) => Says(s, e, true)), Marks(states, events, Denies), k);
  }

  /** Frames are numbered by their replacements, and a frame is asked to reload exactly when it can, and when there is
      an origin to ask it at. */
  lemma FrameIsReplaced(states: seq<State>, events: seq<Event>, k: nat)
    requires IsRun(states, events) && k < |events|
    ensures var s, e, t := states[k], events[k], states[k + 1];
      && t.frameGeneration == s.frameGeneration + (if Replaces(s, e) then 1 else 0)
      && (t.frame == if s.frame.Some? || Replaces(s, e) then Some(t.frameGeneration) else None)
      && t.reloads == s.reloads
         + if AsksFrame(s, e) && (s.sameOrigin ==> s.frameOrigin != "") then [s.frameGeneration] else []
  {
    RunKeeps(states, events, k);
    RunKeeps(states, events, k + 1);
    assert states[k + 1] == Step(states[k], events[k]);
    hide Step, AsksFrame, Notices, Replaces, Queues, Delivered;
    StepSays(states[k], events[k]);
  }

  predicate At(s: State, url: string, sameOrigin: bool, origin: string) {
    && s.sameOrigin == sameOrigin && s.frameOrigin == (if sameOrigin then origin else "")
    && s.frame.Some? && s.src == s.frameUrl == if url == "" then "about:blank" else url
  }

  lemma StepAt(s: State, e: Event, url: string, sameOrigin: bool, origin: string)
    requires Inv(s)
    requires e == Bootstrapped(url, sameOrigin, origin) || (!e.Bootstrapped? && At(s, url, sameOrigin, origin))
    ensures At(Step(s, e), url, sameOrigin, origin)
  {
    hide Inv, Post, Load;
    if e.Loaded? { LoadOnlySends(s, e.generation); }
    if e.Posted? { PostOnlySends(s); }
  }

  /** The latest bootstrap decides what page the frame shows, reloads and fallbacks included, and which origin counts. */
  lemma {:induction false} BootstrapDecides(states: seq<State>, events: seq<Event>, i: nat, k: nat)
    requires IsRun(states, events) && i < k <= |events| && events[i].Bootstrapped?
    requires forall j :: i < j < k ==> !events[j].Bootstrapped?
    ensures At(states[k], events[i].url, events[i].sameOrigin, events[i].origin)
  {
    RunKeeps(states, events, k - 1);
    assert states[k] == Step(states[k - 1], events[k - 1]);
    hide Inv, Step, At;
    if i < k - 1 { BootstrapDecides(states, events, i, k - 1); }
    StepAt(states[k - 1], events[k - 1], events[i].url, events[i].sameOrigin, events[i].origin);
  }

  /** Before the first bootstrap there is no frame and nothing is delivered. */
  lemma {:induction false} NothingBeforeBootstrap(states: seq<State>, events: seq<Event>, k: nat)
    requires IsRun(states, events) && k <= |events| && forall j :: 0 <= j < k ==> !events[j].Bootstrapped?
    ensures states[k].frame.None? && !states[k].reloadTimeout && states[k].delivered == []
  {
    hide Inv;
    if k > 0 {
      NothingBeforeBootstrap(states, events, k - 1);
      assert Enabled(states[k - 1], events[k - 1]) && states[k] == Step(states[k - 1], events[k - 1]);
    }
  }
}
