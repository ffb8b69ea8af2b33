/**
 What becomes of a request: whose launches a cancellation reaches, that they never run,
 and how a launch that has to wait is started, replaced, given up or forgotten.
 */
module LauncherRequests {
  import opened Common
  import opened Launcher
  import opened LauncherSystem
  import opened LauncherInvariant
  import opened LauncherTheorems

  // ---- Whom a cancellation reaches --------------------------------------------------------

  /** The agent by which a submission of `c` reaches the manager, or fails at once. */
  function Retires(c: nat, manager: bool): Agent -> bool {
    (a: Agent) => a == if manager then Retiring(c) else RetirementEvent(c, false)
  }

  /** What a cancellation leaves of a context. */
  function Marked(x: Context, cancels: bool, submits: bool): Context {
    x.(canceled := x.canceled || cancels, submitted := if submits && x.submitted == 0 then 1 else x.submitted)
  }

  /** New submissions are handed on, each once. */
  predicate HandsOn(k: Core, k': Core, c: nat, manager: bool)
    requires c in k.contexts && c in k'.contexts
  {
    Count(k'.spawned, Retires(c, manager)) == Count(k.spawned, Retires(c, manager)) + k'.contexts[c].submitted - k.contexts[c].submitted
  }

  /** Context `c` is cancelled and submitted if it is one of `cs` and of the request. */
  predicate MarkedAs(k: Core, k': Core, cs: seq<nat>, request: nat, c: nat)
    requires c in k.contexts && c in k'.contexts
  {
    var hit := c in cs && k.contexts[c].request == request;
    k'.contexts[c] == Marked(k.contexts[c], hit, hit)
  }

  /** Of the contexts `cs` those of `request` are cancelled and submitted; nothing else changes. */
  predicate Reaches(k: Core, k': Core, cs: seq<nat>, request: nat, manager: bool) {
    && k' == k.(contexts := k'.contexts, spawned := k'.spawned) && k'.contexts.Keys == k.contexts.Keys
    && forall c <- k.contexts :: HandsOn(k, k', c, manager) && MarkedAs(k, k', cs, request, c)
  }

  lemma CancelMarks(k: Core, c: nat, manager: bool)
    requires c in k.contexts
    ensures var k' := CancelContext(k, c, manager);
      && k' == k.(contexts := k'.contexts, spawned := k'.spawned) && k'.contexts == k.contexts[c := Marked(k.contexts[c], true, true)]
      && k'.spawned == k.spawned + (if k.contexts[c].submitted > 0 then []
                                    else [if manager then Retiring(c) else RetirementEvent(c, false)])
  {
    var x := k.contexts[c].(canceled := true);
    assert Put(k, c, x).contexts[c] == x;
    if k.contexts[c].submitted == 0 {
      assert k.contexts[c := x][c := x.(submitted := 1)] == k.contexts[c := x.(submitted := 1)];
    }
  }

  lemma CancelHandsOn(k: Core, c: nat, d: nat, manager: bool)
    requires c in k.contexts && d in k.contexts
    ensures HandsOn(k, CancelContext(k, c, manager), d, manager)
  {
    CancelMarks(k, c, manager);
    hide CancelContext;
    var a := if manager then Retiring(c) else RetirementEvent(c, false);
    assert Retires(d, manager)(a) <==> d == c;
    CountSnoc(k.spawned, a, Retires(d, manager));
    assert k.spawned + [] == k.spawned;
    hide Count;
  }

  lemma ReachesOne(k: Core, c: nat, request: nat, manager: bool)
    requires c in k.contexts
    ensures Reaches(k, if k.contexts[c].request == request then CancelContext(k, c, manager) else k, [c], request, manager)
  {
    hide HandsOn, CancelContext, Reaches, Marked;
    if k.contexts[c].request == request {
      CancelMarks(k, c, manager);
      var k' := CancelContext(k, c, manager);
      forall d <- k.contexts ensures HandsOn(k, k', d, manager) { CancelHandsOn(k, c, d, manager); }
      MarkedReaches(k, k', c, manager);
    } else {
      SparedReaches(k, c, request, manager);
    }
  }

  lemma SparedReaches(k: Core, c: nat, request: nat, manager: bool)
    requires c in k.contexts && k.contexts[c].request != request
    ensures Reaches(k, k, [c], request, manager)
  {}

  lemma MarkedReaches(k: Core, k': Core, c: nat, manager: bool)
    requires c in k.contexts && k'.contexts == k.contexts[c := Marked(k.contexts[c], true, true)]
    requires k' == k.(contexts := k'.contexts, spawned := k'.spawned)
    requires forall d <- k.contexts :: HandsOn(k, k', d, manager)
    ensures Reaches(k, k', [c], k.contexts[c].request, manager)
  {
    hide HandsOn;
  }

  lemma OthersHandOn(k: Core, k': Core, manager: bool)
    requires k'.spawned == k.spawned && k'.contexts.Keys == k.contexts.Keys
    requires forall c <- k.contexts :: k'.contexts[c].submitted == k.contexts[c].submitted
    ensures forall c <- k.contexts :: HandsOn(k, k', c, manager)
  {}

  lemma MarkedTwice(k: Core, k1: Core, k2: Core, first: seq<nat>, second: seq<nat>, request: nat, c: nat)
    requires c in k.contexts && c in k1.contexts && c in k2.contexts
    requires MarkedAs(k, k1, first, request, c) && MarkedAs(k1, k2, second, request, c)
    ensures MarkedAs(k, k2, first + second, request, c)
  {}

  lemma ReachesThrough(k: Core, k1: Core, k2: Core, first: seq<nat>, second: seq<nat>, request: nat, manager: bool)
    requires Reaches(k, k1, first, request, manager) && Reaches(k1, k2, second, request, manager)
    ensures Reaches(k, k2, first + second, request, manager)
  {
    hide HandsOn, MarkedAs;
    HandsThrough(k, k1, k2, manager);
    forall c <- k.contexts ensures MarkedAs(k, k2, first + second, request, c) {
      MarkedTwice(k, k1, k2, first, second, request, c);
    }
  }

  lemma {:induction false} MatchingReaches(k: Core, cs: seq<nat>, request: nat, manager: bool)
    requires forall c <- cs :: c in k.contexts
    ensures Reaches(k, CancelMatching(k, cs, request, manager), cs, request, manager)
    decreases cs
  {
    hide CancelContext, Reaches;
    if cs == [] {
      ReachesNone(k, request, manager);
    } else {
      var c := cs[0];
      var next := if k.contexts[c].request == request then CancelContext(k, c, manager) else k;
      ReachesOne(k, c, request, manager);
      ReachesKeys(k, next, [c], request, manager);
      MatchingReaches(next, cs[1..], request, manager);
      ReachesThrough(k, next, CancelMatching(next, cs[1..], request, manager), [c], cs[1..], request, manager);
      assert [c] + cs[1..] == cs;
    }
  }

  lemma ReachesNone(k: Core, request: nat, manager: bool)
    ensures Reaches(k, k, [], request, manager)
  {}

  lemma ReachesKeys(k: Core, k': Core, cs: seq<nat>, request: nat, manager: bool)
    requires Reaches(k, k', cs, request, manager)
    ensures k'.contexts.Keys == k.contexts.Keys
  {}

  /**
   Cancelling a request reaches its own launches and no others: the one that waits is
   dropped, one in flight is cancelled and submitted once, a current one is marked; every
   other context and every other field stays as it is.
   */
  lemma CancelReachesExactly(k: Core, request: nat, manager: bool)
    requires CoreKnown(k)
    ensures var k' := CancelLaunch(k, request, manager);
      && k'.pending == (if k.pending == Some(request) then None else k.pending)
      && k' == k.(pending := k'.pending, contexts := k'.contexts, spawned := k'.spawned)
      && k'.contexts.Keys == k.contexts.Keys
      && forall c <- k.contexts ::
           && HandsOn(k, k', c, manager)
           && var (x, flying, current) := (k.contexts[c], c in k.inflight, k.current == Some(c));
              k'.contexts[c] == Marked(x, x.request == request && (flying || current), x.request == request && flying)
  {
    hide HandsOn, CancelMatching, CancelCurrent, Reaches;
    var k1 := CancelCurrent(k, request);
    CurrentMarks(k, request, manager);
    MatchingReaches(k1, k.inflight, request, manager);
    var k2 := CancelMatching(k1, k.inflight, request, manager);
    ReachesFacts(k1, k2, k.inflight, request, manager);
    HandsThrough(k, k1, k2, manager);
  }

  lemma CurrentMarks(k: Core, request: nat, manager: bool)
    requires CoreKnown(k)
    ensures var k' := CancelCurrent(k, request);
      && k'.pending == (if k.pending == Some(request) then None else k.pending)
      && k' == k.(pending := k'.pending, contexts := k'.contexts) && k'.contexts.Keys == k.contexts.Keys
      && forall c <- k.contexts ::
           && HandsOn(k, k', c, manager)
           && k'.contexts[c] == Marked(k.contexts[c], k.contexts[c].request == request && k.current == Some(c), false)
  {
    hide HandsOn;
    OthersHandOn(k, CancelCurrent(k, request), manager);
  }

  lemma ReachesFacts(k: Core, k': Core, cs: seq<nat>, request: nat, manager: bool)
    requires Reaches(k, k', cs, request, manager)
    ensures k' == k.(contexts := k'.contexts, spawned := k'.spawned) && k'.contexts.Keys == k.contexts.Keys
    ensures forall c <- k.contexts :: HandsOn(k, k', c, manager)
    ensures forall c <- k.contexts ::
              var hit := c in cs && k.contexts[c].request == request; k'.contexts[c] == Marked(k.contexts[c], hit, hit)
  {}

  lemma HandsThrough(k: Core, k1: Core, k2: Core, manager: bool)
    requires k1.contexts.Keys == k.contexts.Keys == k2.contexts.Keys
    requires forall c <- k.contexts :: HandsOn(k, k1, c, manager) && HandsOn(k1, k2, c, manager)
    ensures forall c <- k.contexts :: HandsOn(k, k2, c, manager)
  {}

  /** A cancelled launch never runs: whatever happens afterwards, none that was in flight becomes current. */
  lemma CancelledLaunchNeverRuns(actions: seq<Action>, request: nat, choice: Choice, more: seq<Action>, c: nat)
    requires var k := Run(Initial, actions).core;
      c in k.inflight && c in k.contexts && k.contexts[c].request == request
    ensures var s := Run(Next(Run(Initial, actions), CallCancelLaunch(request, choice)), more);
      c in s.core.contexts && s.core.contexts[c].canceled && s.core.current != Some(c)
  {
    var s := Run(Initial, actions);
    InitialInv();
    RunInv(Initial, actions);
    hide Run;
    InflightFacts(s, c);
    CancelReachesExactly(s.core, request, choice.manager);
    hide CancelLaunch;
    StaysBarred(Next(s, CallCancelLaunch(request, choice)), more, c);
  }

  lemma InflightFacts(s: System, c: nat)
    requires Inv(s) && c in s.core.inflight
    ensures CoreKnown(s.core) && c <= s.core.serial && s.core.current != Some(c)
  {
    assert ContextOk(s.core, s.agents, c);
  }

  lemma {:induction false} StaysBarred(s: System, actions: seq<Action>, c: nat)
    requires Barred(s.core, c)
    ensures Barred(Run(s, actions).core, c)
    decreases actions
  {
    hide Next;
    if actions != [] {
      NextCalm(s, actions[0]);
      assert c in s.core.contexts;
      StaysBarred(Next(s, actions[0]), actions[1..], c);
    }
  }

  // ---- A launch that has to wait --------------------------------------------------------

  predicate Idle(k: Core) { k.inflight == [] && k.current.None? }

  predicate Sound(outcome: LaunchOutcome) { outcome != Malformed && outcome != PathInvalid }

  /** The retirement that this result reports ends the acceptance of launches. */
  predicate Closes(k: Core, c: nat, ok: bool)
    requires c in k.contexts
  {
    var x := k.contexts[c];
    !ok || (x.attached && !x.fatalObserved && x.observationFailed)
  }

  /** Which launch waits after a step: the newest that was deferred, until it is started, cancelled or given up. */
  function WaitsAfter(s: System, a: Action): Option<nat> {
    var k := s.core;
    match a
    case CallRequestLaunch(request, choice) =>
      if k.accepting && Sound(choice.outcome) && !Idle(k) then Some(request) else k.pending
    case CallCancelLaunch(request, _) => if k.pending == Some(request) then None else k.pending
    case CallCancel => None
    case TimerFires(_, _) => k.pending
    case Act(i, _) =>
      if i >= |s.agents| || !Known(k, s.agents[i]) then k.pending
      else
        match s.agents[i]
        case RetirementEvent(c, ok) => if Closes(k, c, ok) then None else k.pending
        case PublishingRetirement(_) => if k.accepting && Idle(k) then None else k.pending
        case _ => k.pending
  }

  /** Steps that leave who waits, whether launches are accepted and the serial alone, and keep the launcher busy if it is. */
  predicate Undisturbed(k: Core, k': Core) {
    k'.pending == k.pending && k'.accepting == k.accepting && k'.serial == k.serial && (Idle(k') ==> Idle(k))
  }

  lemma SubmitUndisturbed(k: Core, c: nat, manager: bool)
    requires c in k.contexts
    ensures Undisturbed(k, Submit(k, c, manager))
  {}

  lemma CompleteUndisturbed(k: Core, c: nat, admission: Admission, progress: Progress, manager: bool)
    requires c in k.contexts
    ensures Undisturbed(k, CompleteLaunch(k, c, admission, progress, manager).0)
  {
    hide Submit;
    var x := k.contexts[c];
    var r := Put(k, c, x.(resolved := true, timer := false));
    var f := Put(r, c, r.contexts[c].(observationFailed := true));
    var o := Spawn(r, Observer(c));
    var g := Put(o, c, o.contexts[c].(gateReleased := true));
    SubmitUndisturbed(r, c, manager);
    SubmitUndisturbed(f, c, manager);
    SubmitUndisturbed(g, c, manager);
  }

  lemma CallsUndisturbed(k: Core, c: nat, manager: bool, admission: Admission, progress: Progress, flag: bool)
    requires c in k.contexts
    ensures Undisturbed(k, Submit(k, c, manager)) && Undisturbed(k, RequestAdmission(k, c, manager).0)
    ensures Undisturbed(k, AttachReturned(k, c, flag, manager).0)
    ensures Undisturbed(k, CompleteLaunch(k, c, admission, progress, manager).0)
  {
    hide Submit, CompleteLaunch, Without;
    SubmitUndisturbed(k, c, manager);
    SubmitUndisturbed(Put(k, c, k.contexts[c].(gateReleased := true)), c, manager);
    CompleteUndisturbed(k, c, admission, progress, manager);
  }

  lemma {:induction false} SubmitAllUndisturbed(k: Core, cs: seq<nat>, manager: bool)
    requires forall c <- cs :: c in k.contexts
    ensures Undisturbed(k, SubmitAll(k, cs, manager))
    decreases cs
  {
    if cs != [] { SubmitAllUndisturbed(Submit(k, cs[0], manager), cs[1..], manager); }
  }

  lemma ReturnUndisturbed(k: Core, current: Option<nat>, inflight: seq<nat>, manager: bool)
    requires Known(k, Cancelling(current, inflight))
    ensures Undisturbed(k, CancelReturned(k, current, inflight, manager))
  {
    SubmitAllUndisturbed(if current.Some? then Submit(k, current.value, manager) else k, inflight, manager);
  }

  lemma DropUndisturbed(s: System, i: nat, c: nat, manager: bool)
    requires i < |s.agents|
    ensures Undisturbed(s.core, Drop(s, i, c, manager).core)
  {}

  lemma CallDropUndisturbed(s: System, k: Core, i: nat, c: nat, manager: bool)
    requires i < |s.agents| && Undisturbed(s.core, k)
    ensures Undisturbed(s.core, Drop(Settle(s, k), i, c, manager).core)
  {
    DropUndisturbed(Settle(s, k), i, c, manager);
  }

  predicate Handles(a: Agent) { a.RetirementEvent? || a.PublishingRetirement? }

  lemma PayloadUndisturbed(s: System, i: nat, choice: Choice)
    requires i < |s.agents| && Known(s.core, s.agents[i])
    requires s.agents[i].AdmissionEvent? || s.agents[i].RequestingAdmission? || s.agents[i].CompletionEvent? || s.agents[i].Attaching?
    ensures Undisturbed(s.core, Step(s, i, choice).core)
  {
    hide Drop, CompleteLaunch, RequestAdmission, AttachReturned, Submit;
    var a, k, m := s.agents[i], s.core, choice.manager;
    var admission := if a.CompletionEvent? then a.admission else Rejected;
    CallsUndisturbed(k, a.context, m, admission, choice.progress, choice.yes);
    DropUndisturbed(s, i, a.context, m);
    CallDropUndisturbed(s, RequestAdmission(k, a.context, m).0, i, a.context, m);
    CallDropUndisturbed(s, CompleteLaunch(k, a.context, admission, choice.progress, m).0, i, a.context, m);
    CallDropUndisturbed(s, AttachReturned(k, a.context, choice.yes, m).0, i, a.context, m);
  }

  lemma StepUndisturbed(s: System, i: nat, choice: Choice)
    requires i < |s.agents| && Known(s.core, s.agents[i]) && !Handles(s.agents[i])
    ensures Undisturbed(s.core, Step(s, i, choice).core)
  {
    hide Drop, CompleteLaunch, RequestAdmission, AttachReturned, CancelReturned, Submit;
    var k, m := s.core, choice.manager;
    match s.agents[i]
    case LaunchThread(c) => DropUndisturbed(s, i, c, m);
    case AdmissionClosure(c) => DropUndisturbed(s, i, c, m);
    case Announcing(c) => DropUndisturbed(s.(core := Put(k, c, k.contexts[c].(gateReleased := true))), i, c, m);
    case Observer(c) =>
      SubmitUndisturbed(Put(k, c, if choice.yes then k.contexts[c] else k.contexts[c].(observationFailed := true)), c, m);
    case Cancelling(current, inflight) => ReturnUndisturbed(k, current, inflight, m);
    case Retiring(_) =>
    case RetirementEvent(_, _) =>
    case PublishingRetirement(_) =>
    case NotifyingExit(_, _) =>
    case Done =>
    case _ => PayloadUndisturbed(s, i, choice);
  }

  /** The launcher defers, starts, drops and gives up the launch that waits exactly as `WaitsAfter` says. */
  lemma WhoWaits(s: System, a: Action)
    requires Inv(s)
    ensures Next(s, a).core.pending == WaitsAfter(s, a)
  {
    var k := s.core;
    match a
    case CallCancelLaunch(request, choice) =>
      CancelReachesExactly(k, request, choice.manager);
    case TimerFires(c, choice) =>
      if c in k.contexts { CallsUndisturbed(k, c, choice.manager, Rejected, choice.progress, false); }
    case Act(i, choice) =>
      if i < |s.agents| && Known(k, s.agents[i]) && !Handles(s.agents[i]) { StepUndisturbed(s, i, choice); }
    case _ =>
  }

  // ---- Someone starts the launch that waits -------------------------------------------------------

  /** The agent will look for a launch that waits. */
  predicate Looks(a: Agent, serial: nat) {
    a.PublishingRetirement? || (a.NotifyingExit? && a.serial == serial)
  }

  /** A launch that waits has a launch before it, or someone who will look for it. */
  predicate Attended(s: System) {
    s.core.pending.Some? ==> !Idle(s.core) || exists a <- s.agents :: Looks(a, s.core.serial)
  }

  /** Notifiers remember serials of the past, and nothing waits once launches are not accepted. */
  predicate Dated(s: System) {
    (s.core.pending.Some? ==> s.core.accepting) && forall a <- s.agents :: a.NotifyingExit? ==> a.serial <= s.core.serial
  }

  /** The agents but `i` stay, and only a handled retirement adds a notifier, of the present serial. */
  predicate Joins(s: System, i: nat, t: System) {
    && |t.agents| >= |s.agents|
    && (forall j :: 0 <= j < |s.agents| && j != i ==> t.agents[j] == s.agents[j])
    && forall a <- t.agents :: a.NotifyingExit? ==> a in s.agents || a.serial == t.core.serial
  }

  predicate NoNotifier(agents: seq<Agent>) { forall a <- agents :: !a.NotifyingExit? }

  lemma CallsSpawn(k: Core, c: nat, manager: bool, admission: Admission, progress: Progress, flag: bool)
    requires c in k.contexts && NoNotifier(k.spawned)
    ensures NoNotifier(Submit(k, c, manager).spawned) && NoNotifier(RequestAdmission(k, c, manager).0.spawned)
    ensures NoNotifier(AttachReturned(k, c, flag, manager).0.spawned)
    ensures NoNotifier(CompleteLaunch(k, c, admission, progress, manager).0.spawned)
  {}

  lemma {:induction false} SubmitAllSpawns(k: Core, cs: seq<nat>, manager: bool)
    requires (forall c <- cs :: c in k.contexts) && NoNotifier(k.spawned)
    ensures NoNotifier(SubmitAll(k, cs, manager).spawned)
    decreases cs
  {
    if cs != [] { SubmitAllSpawns(Submit(k, cs[0], manager), cs[1..], manager); }
  }

  lemma {:induction false} MatchingSpawns(k: Core, cs: seq<nat>, request: nat, manager: bool)
    requires (forall c <- cs :: c in k.contexts) && NoNotifier(k.spawned)
    ensures NoNotifier(CancelMatching(k, cs, request, manager).spawned)
    decreases cs
  {
    if cs != [] {
      MatchingSpawns(if k.contexts[cs[0]].request == request then CancelContext(k, cs[0], manager) else k, cs[1..], request, manager);
    }
  }

  lemma LaunchSpawns(k: Core, request: nat, outcome: LaunchOutcome, manager: bool)
    requires NoNotifier(k.spawned)
    ensures NoNotifier(RequestLaunch(k, request, outcome, manager).0.spawned) && NoNotifier(Cancel(k).spawned)
    ensures NoNotifier(RetirementPublished(k, outcome, manager).spawned)
  {}

  lemma SettleJoins(s: System, k: Core)
    requires NoNotifier(k.spawned)
    ensures Joins(s, |s.agents|, Settle(s, k))
  {}

  lemma BecomeJoins(s: System, t: System, i: nat, a: Agent)
    requires Joins(s, |s.agents|, t) && i < |s.agents| && !a.NotifyingExit?
    ensures Joins(s, i, Become(t, i, a))
  {}

  lemma DropJoins(s: System, t: System, i: nat, c: nat, manager: bool)
    requires Joins(s, |s.agents|, t) && i < |s.agents| && t.core.spawned == []
    ensures Joins(s, i, Drop(t, i, c, manager))
  {
    BecomeJoins(s, t, i, Done);
    hide Become;
    if c in t.core.contexts { CallsSpawn(t.core, c, manager, Rejected, NotPublished, false); }
  }

  /** Agents that hold the payload of one context and make a call about it. */
  lemma PayloadJoins(s: System, i: nat, choice: Choice)
    requires s.core.spawned == [] && i < |s.agents| && Known(s.core, s.agents[i])
    requires s.agents[i].AdmissionEvent? || s.agents[i].RequestingAdmission? || s.agents[i].CompletionEvent? || s.agents[i].Attaching?
    ensures Joins(s, i, Step(s, i, choice))
  {
    hide Drop, CompleteLaunch, RequestAdmission, AttachReturned, Submit, Joins;
    var a, k, m := s.agents[i], s.core, choice.manager;
    var (c, admission) := (a.context, if a.CompletionEvent? then a.admission else Rejected);
    CallsSpawn(k, c, m, admission, choice.progress, choice.yes);
    var k1, k2, k3 := RequestAdmission(k, c, m).0, CompleteLaunch(k, c, admission, choice.progress, m).0,
                      AttachReturned(k, c, choice.yes, m).0;
    SettleJoins(s, k1);
    SettleJoins(s, k2);
    SettleJoins(s, k3);
    DropJoins(s, Settle(s, k1), i, c, m);
    DropJoins(s, Settle(s, k2), i, c, m);
    DropJoins(s, Settle(s, k3), i, c, m);
    BecomeJoins(s, Settle(s, k1), i, RequestingAdmission(c));
    BecomeJoins(s, Settle(s, k2), i, Attaching(c));
    BecomeJoins(s, Settle(s, k3), i, Announcing(c));
    StayJoins(s);
    DropJoins(s, s, i, c, m);
  }

  lemma StayJoins(s: System)
    ensures Joins(s, |s.agents|, s)
  {}

  lemma AddJoins(s: System, i: nat, b: Agent)
    requires !b.NotifyingExit?
    ensures Joins(s, i, s.(agents := s.agents + [b]))
  {}

  lemma ObservedJoins(s: System, i: nat, x: Context, manager: bool)
    requires s.core.spawned == [] && i < |s.agents| && s.agents[i].Observer? && s.agents[i].context in s.core.contexts
    ensures var c := s.agents[i].context;
      Joins(s, i, Become(Settle(s, Submit(Put(s.core, c, x), c, manager)), i, Done))
  {
    var c := s.agents[i].context;
    CallsSpawn(Put(s.core, c, x), c, manager, Rejected, NotPublished, false);
    hide Submit, Joins;
    SettleJoins(s, Submit(Put(s.core, c, x), c, manager));
    BecomeJoins(s, Settle(s, Submit(Put(s.core, c, x), c, manager)), i, Done);
  }

  lemma HandledJoins(s: System, i: nat, c: nat, ok: bool)
    requires s.core.spawned == [] && i < |s.agents| && c in s.core.contexts
    ensures Joins(s, i, Become(Settle(s, HandleRetirement(s.core, c, ok)), i, Done))
  {}

  lemma EndJoins(s: System, k: Core, i: nat)
    requires NoNotifier(k.spawned) && i < |s.agents|
    ensures Joins(s, i, Become(Settle(s, k), i, Done))
  {
    SettleJoins(s, k);
    BecomeJoins(s, Settle(s, k), i, Done);
  }

  lemma StepJoins(s: System, i: nat, choice: Choice)
    requires s.core.spawned == [] && i < |s.agents| && Known(s.core, s.agents[i])
    ensures Joins(s, i, Step(s, i, choice))
  {
    var k, m := s.core, choice.manager;
    StayJoins(s);
    hide Drop, CompleteLaunch, RequestAdmission, AttachReturned, Submit, HandleRetirement, CancelReturned, RetirementPublished, Settle,
         Become;
    match s.agents[i]
    case LaunchThread(c) =>
      BecomeJoins(s, s, i, AdmissionEvent(c));
      DropJoins(s, s, i, c, m);
    case AdmissionClosure(c) => DropJoins(s, s, i, c, m);
    case Announcing(c) => AnnouncedJoins(s, i, c, m);
    case Observer(c) =>
      ObservedJoins(s, i, if choice.yes then k.contexts[c] else k.contexts[c].(observationFailed := true), m);
    case Cancelling(current, inflight) =>
      ReturnSpawns(k, current, inflight, m);
      EndJoins(s, CancelReturned(k, current, inflight, m), i);
    case Retiring(c) => BecomeJoins(s, s, i, RetirementEvent(c, true));
    case RetirementEvent(c, ok) => HandledJoins(s, i, c, ok);
    case NotifyingExit(c, serial) => EndJoins(s, ExitNotified(k, c, serial), i);
    case PublishingRetirement(c) =>
      LaunchSpawns(k, 0, choice.outcome, m);
      EndJoins(s, RetirementPublished(k, choice.outcome, m), i);
    case Done =>
    case _ => PayloadJoins(s, i, choice);
  }

  lemma AnnouncedJoins(s: System, i: nat, c: nat, manager: bool)
    requires s.core.spawned == [] && i < |s.agents| && c in s.core.contexts
    ensures Joins(s, i, Drop(s.(core := Put(s.core, c, s.core.contexts[c].(gateReleased := true))), i, c, manager))
  {
    var t := s.(core := Put(s.core, c, s.core.contexts[c].(gateReleased := true)));
    StayJoins(s);
    DropJoins(s, t, i, c, manager);
  }

  lemma ReturnSpawns(k: Core, current: Option<nat>, inflight: seq<nat>, manager: bool)
    requires Known(k, Cancelling(current, inflight)) && NoNotifier(k.spawned)
    ensures NoNotifier(CancelReturned(k, current, inflight, manager).spawned)
  {
    SubmitAllSpawns(if current.Some? then Submit(k, current.value, manager) else k, inflight, manager);
  }

  function Actor(s: System, a: Action): nat { if a.Act? then a.agent else |s.agents| }

  lemma NextJoins(s: System, a: Action)
    requires Inv(s)
    ensures Joins(s, Actor(s, a), Next(s, a))
  {
    var k := s.core;
    assert k.spawned == [] && CoreKnown(k);
    StayJoins(s);
    hide Inv, Step, CompleteLaunch, RequestLaunch, CancelMatching, Joins, Settle;
    match a
    case CallRequestLaunch(request, choice) =>
      LaunchSpawns(k, request, choice.outcome, choice.manager);
      SettleJoins(s, RequestLaunch(k, request, choice.outcome, choice.manager).0);
    case CallCancelLaunch(request, choice) =>
      MatchingSpawns(CancelCurrent(k, request), k.inflight, request, choice.manager);
      SettleJoins(s, CancelLaunch(k, request, choice.manager));
    case CallCancel => SettleJoins(s, Cancel(k));
    case TimerFires(c, choice) =>
      if c in k.contexts {
        CallsSpawn(k, c, choice.manager, Rejected, choice.progress, false);
        SettleJoins(s, CompleteLaunch(k, c, Rejected, choice.progress, choice.manager).0);
      }
    case Act(i, choice) =>
      if i < |s.agents| && Known(k, s.agents[i]) { StepJoins(s, i, choice); } else { IdleJoins(s, i); }
  }

  lemma IdleJoins(s: System, i: nat)
    ensures Joins(s, i, s)
  {}

  /**
   A call that finds the launcher idle, moves the serial on and starts nothing, while a
   launch waits for a notifier of the serial before.
   */
  predicate Strands(s: System, a: Action) {
    && a.CallRequestLaunch? && a.choice.outcome == TempUnavailable
    && s.core.accepting && Idle(s.core) && s.core.pending.Some?
    && forall b <- s.agents :: !b.PublishingRetirement?
  }

  /** The agent that looked is still there if it did not act. */
  lemma KeepsLooking(s: System, i: nat, t: System, serial: nat)
    requires Joins(s, i, t) && (i < |s.agents| ==> !Looks(s.agents[i], serial))
    requires exists b <- s.agents :: Looks(b, serial)
    ensures exists b <- t.agents :: Looks(b, serial)
  {
    var j :| 0 <= j < |s.agents| && Looks(s.agents[j], serial);
    assert t.agents[j] == s.agents[j] && t.agents[j] in t.agents;
  }

  lemma JoinsDated(s: System, i: nat, t: System)
    requires Joins(s, i, t) && Dated(s) && s.core.serial <= t.core.serial && (t.core.pending.Some? ==> t.core.accepting)
    ensures Dated(t)
  {}

  /** A step that disturbs nothing leaves the launch that waits in good hands. */
  lemma UndisturbedAttended(s: System, i: nat, t: System)
    requires Joins(s, i, t) && Dated(s) && Attended(s) && Undisturbed(s.core, t.core)
    requires i < |s.agents| ==> !Looks(s.agents[i], s.core.serial)
    ensures Dated(t) && Attended(t)
  {
    JoinsDated(s, i, t);
    hide Joins;
    if s.core.pending.Some? && Idle(s.core) { KeepsLooking(s, i, t, s.core.serial); }
  }

  /** Nobody waits, or somebody is before the one that waits. */
  lemma SettledAttended(s: System, i: nat, t: System)
    requires Joins(s, i, t) && Dated(s) && s.core.serial <= t.core.serial && (t.core.pending.Some? ==> t.core.accepting && !Idle(t.core))
    ensures Dated(t) && Attended(t)
  {
    JoinsDated(s, i, t);
  }

  lemma LaunchAttended(s: System, request: nat, choice: Choice)
    requires Inv(s) && Dated(s) && Attended(s)
    ensures var (a, t) := (CallRequestLaunch(request, choice), Next(s, CallRequestLaunch(request, choice)));
      Dated(t) && (Attended(t) <==> !Strands(s, a))
  {
    var a := CallRequestLaunch(request, choice);
    var t := Next(s, a);
    NextJoins(s, a);
    hide Inv, Joins, Dated, Attended;
    if !s.core.accepting || !Sound(choice.outcome) {
      UndisturbedAttended(s, |s.agents|, t);
    } else if Idle(s.core) && choice.outcome == TempUnavailable {
      MovedOn(s, t);
    } else {
      StartedIsBusy(s.core, request, choice);
      SettledAttended(s, |s.agents|, t);
    }
  }

  lemma StartedIsBusy(k: Core, request: nat, choice: Choice)
    requires k.accepting && Sound(choice.outcome) && (Idle(k) ==> choice.outcome != TempUnavailable)
    ensures var k' := RequestLaunch(k, request, choice.outcome, choice.manager).0;
      k'.accepting && !Idle(k') && k.serial <= k'.serial
  {}

  lemma MovedOn(s: System, t: System)
    requires Dated(s) && Attended(s) && Idle(s.core) && s.core.accepting
    requires t.core == s.core.(serial := s.core.serial + 1, spawned := []) && t.agents == s.agents + []
    ensures Dated(t)
    ensures Attended(t) <==> s.core.pending.None? || exists b <- s.agents :: b.PublishingRetirement?
  {
    assert t.agents == s.agents;
    if s.core.pending.Some? && Attended(t) {
      var b :| b in t.agents && Looks(b, t.core.serial);
      assert b.PublishingRetirement?;
    }
  }

  lemma HandlingAttended(s: System, i: nat, choice: Choice)
    requires Inv(s) && Dated(s) && Attended(s) && i < |s.agents| && Known(s.core, s.agents[i])
    requires Handles(s.agents[i]) || s.agents[i].NotifyingExit?
    ensures Dated(Step(s, i, choice)) && Attended(Step(s, i, choice))
  {
    var t := Step(s, i, choice);
    StepJoins(s, i, choice);
    hide Inv, Joins, Dated, Attended, Submit;
    match s.agents[i]
    case RetirementEvent(c, ok) => HandledAttended(s, i, c, ok);
    case PublishingRetirement(c) => PublishedAttended(s, i, choice);
    case NotifyingExit(c, serial) =>
      if serial == s.core.serial { SomeoneAttends(s, i, t, PublishingRetirement(c)); } else { UndisturbedAttended(s, i, t); }
  }

  lemma SomeoneAttends(s: System, i: nat, t: System, b: Agent)
    requires Joins(s, i, t) && Dated(s) && s.core.serial == t.core.serial
    requires t.core.pending.Some? ==> s.core.pending.Some? && t.core.accepting
    requires i < |s.agents| && t.agents == (s.agents + [b])[i := Done] && Looks(b, t.core.serial)
    ensures Dated(t) && Attended(t)
  {
    JoinsDated(s, i, t);
    assert t.agents[|s.agents|] == b && b in t.agents;
  }

  lemma HandledAttended(s: System, i: nat, c: nat, ok: bool)
    requires s.core.spawned == [] && Dated(s) && i < |s.agents| && c in s.core.contexts
    requires Joins(s, i, Become(Settle(s, HandleRetirement(s.core, c, ok)), i, Done))
    ensures var t := Become(Settle(s, HandleRetirement(s.core, c, ok)), i, Done); Dated(t) && Attended(t)
  {
    var t := Become(Settle(s, HandleRetirement(s.core, c, ok)), i, Done);
    assert s.core.pending.Some? ==> s.core.accepting;
    hide Joins, Dated, Attended;
    if Closes(s.core, c, ok) {
      SettledAttended(s, i, t);
    } else {
      var x := s.core.contexts[c];
      SomeoneAttends(s, i, t, if x.attached && !x.fatalObserved then NotifyingExit(c, s.core.serial) else PublishingRetirement(c));
    }
  }

  lemma PublishedAttended(s: System, i: nat, choice: Choice)
    requires s.core.spawned == [] && Dated(s) && i < |s.agents|
    requires Joins(s, i, Become(Settle(s, RetirementPublished(s.core, choice.outcome, choice.manager)), i, Done))
    ensures var t := Become(Settle(s, RetirementPublished(s.core, choice.outcome, choice.manager)), i, Done);
      Dated(t) && Attended(t)
  {
    var t := Become(Settle(s, RetirementPublished(s.core, choice.outcome, choice.manager)), i, Done);
    assert s.core.pending.Some? ==> s.core.accepting;
    hide Joins, Dated, Attended, Submit;
    SettledAttended(s, i, t);
  }

  lemma NextAttended(s: System, a: Action)
    requires Inv(s) && Dated(s) && Attended(s)
    ensures Dated(Next(s, a)) && (Attended(Next(s, a)) <==> !Strands(s, a))
  {
    NextJoins(s, a);
    var (k, t) := (s.core, Next(s, a));
    assert k.spawned == [] && CoreKnown(k);
    match a
    case CallRequestLaunch(request, choice) => LaunchAttended(s, request, choice);
    case CallCancelLaunch(request, choice) =>
      CancelReachesExactly(k, request, choice.manager);
      hide Inv, Joins, Dated, Attended, CancelLaunch, HandsOn;
      if k.pending == Some(request) { SettledAttended(s, |s.agents|, t); } else { UndisturbedAttended(s, |s.agents|, t); }
    case CallCancel => SettledAttended(s, |s.agents|, t);
    case TimerFires(c, choice) =>
      if c in k.contexts { CallsUndisturbed(k, c, choice.manager, Rejected, choice.progress, false); }
      hide Inv, Joins, Dated, Attended, CompleteLaunch;
      UndisturbedAttended(s, |s.agents|, t);
    case Act(i, choice) =>
      hide Inv, Joins, Dated, Attended, Step;
      if i < |s.agents| && Known(k, s.agents[i]) {
        if Handles(s.agents[i]) || s.agents[i].NotifyingExit? {
          HandlingAttended(s, i, choice);
        } else {
          StepUndisturbed(s, i, choice);
          UndisturbedAttended(s, i, t);
        }
      }
  }

  lemma {:induction false} RunDated(s: System, actions: seq<Action>)
    requires Inv(s) && Dated(s)
    ensures Inv(Run(s, actions)) && Dated(Run(s, actions))
    decreases actions
  {
    hide Inv, Next, Dated;
    if actions != [] {
      NextInv(s, actions[0]);
      NextDated(s, actions[0]);
      RunDated(Next(s, actions[0]), actions[1..]);
    }
  }

  lemma NextDated(s: System, a: Action)
    requires Inv(s) && Dated(s)
    ensures Dated(Next(s, a))
  {
    NextJoins(s, a);
    NextCalm(s, a);
    WhoWaits(s, a);
    NextAccepting(s, a);
    hide Inv, Joins, Next, Calm;
    JoinsDated(s, Actor(s, a), Next(s, a));
  }

  lemma NextAccepting(s: System, a: Action)
    requires Inv(s) && (s.core.pending.Some? ==> s.core.accepting)
    ensures WaitsAfter(s, a).Some? ==> Next(s, a).core.accepting
  {
    var k := s.core;
    match a
    case CallCancelLaunch(request, choice) => CancelReachesExactly(k, request, choice.manager);
    case TimerFires(c, choice) =>
      if c in k.contexts { CallsUndisturbed(k, c, choice.manager, Rejected, choice.progress, false); }
    case Act(i, choice) =>
      if i < |s.agents| && Known(k, s.agents[i]) && !Handles(s.agents[i]) { StepUndisturbed(s, i, choice); }
    case _ =>
  }

  /**
   Whether a launch that waits is started in the end depends on one kind of step alone: on
   every run, as long as it has a launch before it or someone who will look for it, it
   keeps that in every step except a call, made while the launcher is idle and no
   retirement is being published, that moves the serial on and then has no temp tree.
   */
  lemma WaitingLaunchIsStrandedExactlyWhen(actions: seq<Action>, a: Action)
    requires Attended(Run(Initial, actions))
    ensures !Attended(Next(Run(Initial, actions), a)) <==> Strands(Run(Initial, actions), a)
  {
    InitialInv();
    RunDated(Initial, actions);
    hide Run;
    NextAttended(Run(Initial, actions), a);
  }

  /** A request that finds the launcher idle gets a new context of its own, in flight, with a thread, or at once retired. */
  lemma LaunchStarts(k: Core, request: nat, outcome: LaunchOutcome, manager: bool)
    requires Idle(k) && k.accepting
    ensures var ((k', ok), n) := (RequestLaunch(k, request, outcome, manager), k.serial + 1);
      && (ok <==> outcome == Launched)
      && (Sound(outcome) ==> k'.serial == n)
      && (outcome == Launched || outcome == NotStarted ==>
            && k'.inflight == [n] && k'.contexts.Keys == k.contexts.Keys + {n} && k'.contexts[n].request == request
            && (forall c <- k.contexts :: c != n ==> k'.contexts[c] == k.contexts[c])
            && !k'.contexts[n].canceled && k'.contexts[n].submitted == (if outcome == Launched then 0 else 1)
            && k'.spawned == k.spawned
                             + [if outcome == Launched then LaunchThread(n)
                                else if manager then Retiring(n) else RetirementEvent(n, false)])
      && (outcome != Launched && outcome != NotStarted ==>
            k'.contexts == k.contexts && k'.inflight == [] && k'.spawned == k.spawned)
      && k'.pending == k.pending && k'.current.None? && k'.accepting && k'.fatal == k.fatal
  {}

  /** The end of a retirement starts the launch that waits, in the same way, and nothing waits any more. */
  lemma WaitingLaunchStarts(s: System, i: nat, choice: Choice)
    requires Inv(s) && i < |s.agents| && s.agents[i].PublishingRetirement?
    requires s.core.accepting && Idle(s.core) && s.core.pending.Some? && choice.outcome == Launched
    ensures var (k, n) := (Next(s, Act(i, choice)).core, s.core.serial + 1);
      && k.pending.None? && k.serial == n && k.inflight == [n]
      && n !in s.core.contexts && k.contexts == s.core.contexts[n := NewContext(s.core.pending.value)]
      && LaunchThread(n) in Next(s, Act(i, choice)).agents
  {
    assert s.agents[i] in s.agents;
    assert AgentOk(s.core, s.agents[i]);
    var t := Next(s, Act(i, choice));
    assert t.agents[|s.agents|] == LaunchThread(s.core.serial + 1);
  }

  const NoTemp := Yes.(outcome := TempUnavailable)

  /** The worker of launch 1 is attached and exits while launch 8 waits; its retirement has been submitted. */
  const Exited := InAttach.(consumed := true, attached := true, gateReleased := true, submitted := 1)

  const AtExit := System(OneContext(true, 1, [], Exited).(current := Some(1), pending := Some(8)),
                         [RequestingAdmission(1), AdmissionClosure(1), Done, Done, Retiring(1)])

  const ToExit: seq<Action> := [Act(2, Yes), Act(2, Yes), CallRequestLaunch(8, Yes), Act(3, Yes)]

  lemma ReachesExit()
    ensures Run(AtAttach, ToExit) == AtExit
  {
    var x := InAttach.(consumed := true, attached := true);
    var a := [RequestingAdmission(1), AdmissionClosure(1)];
    var s1 := Next(AtAttach, Act(2, Yes));
    assert Without([1], 1) == [];
    assert s1 == System(OneContext(true, 1, [], x).(current := Some(1)), a + [Announcing(1), Observer(1)]);
    var s2 := Next(s1, Act(2, Yes));
    var y := x.(gateReleased := true);
    assert s2 == System(OneContext(true, 1, [], y).(current := Some(1)), a + [Done, Observer(1)]);
    var s3 := Next(s2, CallRequestLaunch(8, Yes));
    assert s3 == System(OneContext(true, 1, [], y).(current := Some(1), pending := Some(8)), a + [Done, Observer(1)]);
    var s4 := Next(s3, Act(3, Yes));
    assert s4 == AtExit;
    hide Next;
    IterateThrough(Next, [AtAttach, s1, s2, s3, s4], ToExit);
  }

  /** The retirement is handled; the observer that is told of the exit calls for launch 9, which has no temp tree. */
  const ToStrand: seq<Action> := [Act(4, Yes), Act(4, Yes), CallRequestLaunch(9, NoTemp), Act(5, Yes)]

  predicate Stranded(s: System) { s.core.pending.Some? && s.core.accepting && Idle(s.core) && !Attended(s) }

  lemma StrandsFromExit()
    ensures Stranded(Run(AtExit, ToStrand))
  {
    var a := AtExit.agents[..4];
    var s1 := Next(AtExit, Act(4, Yes));
    assert s1 == System(AtExit.core, a + [RetirementEvent(1, true)]);
    var s2 := Next(s1, Act(4, Yes));
    assert Without([], 1) == [];
    assert s2 == System(OneContext(true, 1, [], Exited.(handled := true)).(pending := Some(8)), a + [Done, NotifyingExit(1, 1)]);
    var s3 := Next(s2, CallRequestLaunch(9, NoTemp));
    assert s3 == System(s2.core.(serial := 2), s2.agents);
    var s4 := Next(s3, Act(5, Yes));
    assert s4 == System(s3.core, a + [Done, Done]);
    hide Next;
    IterateThrough(Next, [AtExit, s1, s2, s3, s4], ToStrand);
  }

  /** One run from the start after which a launch waits, nothing is before it and nobody will look for it. */
  lemma WaitingLaunchCanBeStranded()
    ensures Stranded(Run(Initial, ToAttach + (ToExit + ToStrand)))
  {
    ReachesAttach();
    ReachesExit();
    StrandsFromExit();
    hide Next, Stranded;
    IterateAppend(Next, AtAttach, ToExit, ToStrand);
    IterateAppend(Next, Initial, ToAttach, ToExit + ToStrand);
  }
}
