/** What holds of launch contexts on every run. */
module LauncherTheorems {
  import opened Common
  import opened Launcher
  import opened LauncherSystem
  import opened LauncherInvariant

  lemma InitialInv()
    ensures Inv(Initial)
  {}

  /**
   Conservation, under any race: at most one context is in flight or current; a
   context is in one of these places unless its retirement was submitted, which
   happens at most once.
   */
  lemma ContextsAreConserved(actions: seq<Action>)
    ensures var k := Run(Initial, actions).core;
      && |k.inflight| + (if k.current.Some? then 1 else 0) <= 1
      && forall c <- k.contexts ::
           && k.contexts[c].submitted <= 1
           && (k.contexts[c].submitted == 1 || c in k.inflight || k.current == Some(c))
           && !(c in k.inflight && k.current == Some(c))
  {
    InitialInv();
    RunInv(Initial, actions);
    hide Run;
    var s := Run(Initial, actions);
    forall c <- s.core.contexts ensures ContextOk(s.core, s.agents, c) {}
  }

  /**
   No worker is forgotten: until its retirement is submitted, a context that is not
   attached has a live reference to its payload, whose last holder will submit it, and
   an attached one has an observer that is watching or will be released to watch.
   */
  lemma EveryContextIsLookedAfter(actions: seq<Action>, c: nat)
    requires c in Run(Initial, actions).core.contexts && Run(Initial, actions).core.contexts[c].submitted == 0
    ensures var s := Run(Initial, actions);
      && (c in s.core.inflight ==> Held(s.agents, c))
      && (s.core.current == Some(c) ==> Observer(c) in s.agents
                                        && (s.core.contexts[c].gateReleased || Announcing(c) in s.agents))
  {
    InitialInv();
    RunInv(Initial, actions);
    hide Run;
    var s := Run(Initial, actions);
    assert ContextOk(s.core, s.agents, c);
  }

  /** An attachment that has not been cancelled belongs to the newest context and has no rival. */
  lemma OnlyTheNewestAttaches(actions: seq<Action>, i: nat)
    requires var s := Run(Initial, actions);
      i < |s.agents| && s.agents[i].Attaching?
      && s.agents[i].context in s.core.contexts && !s.core.contexts[s.agents[i].context].canceled
    ensures var s := Run(Initial, actions);
      && (forall d <- s.core.contexts :: d <= s.agents[i].context)
      && s.core.current.None?
      && (s.core.accepting ==> s.agents[i].context == s.core.serial && s.core.inflight == [s.core.serial])
      && forall j :: 0 <= j < |s.agents| && j != i && s.agents[j].Attaching? ==>
           s.agents[j].context in s.core.contexts && s.core.contexts[s.agents[j].context].canceled
  {
    InitialInv();
    RunInv(Initial, actions);
    hide Run;
    var s := Run(Initial, actions);
    AttachFacts(s, i, s.agents[i].context);
    assert s.agents[i] in s.agents;
    assert AgentOk(s.core, s.agents[i]);
    forall j | 0 <= j < |s.agents| && j != i && s.agents[j].Attaching?
      ensures s.agents[j].context in s.core.contexts && s.core.contexts[s.agents[j].context].canceled
    {
      OnlyOneAttaches(s, i, j);
    }
  }

  /** While launches are accepted the current worker is one whose retirement has not been handled. */
  lemma CurrentIsAliveWhileAccepting(actions: seq<Action>)
    ensures var k := Run(Initial, actions).core;
      k.accepting && k.current.Some? ==> k.current.value in k.contexts && !k.contexts[k.current.value].handled
  {
    InitialInv();
    RunInv(Initial, actions);
    hide Run;
    var s := Run(Initial, actions);
    if s.core.current.Some? { assert ContextOk(s.core, s.agents, s.core.current.value); }
  }

  // ---- Cancellation is final ------------------------------------------------------------------

  /** The context is cancelled and not current. */
  predicate Barred(k: Core, c: nat) {
    c in k.contexts && c <= k.serial && k.contexts[c].canceled && k.current != Some(c)
  }

  /** No call reopens the launcher, a closed launcher creates no context, and a barred context stays barred. */
  predicate StaysClosed(k: Core, k': Core) {
    && (!k.accepting ==> !k'.accepting && k'.contexts.Keys == k.contexts.Keys)
    && k.serial <= k'.serial
    && forall c <- k.contexts :: Barred(k, c) ==> Barred(k', c)
  }

  /** The current context is one whose retirement has been handled. */
  predicate RetiredIsCurrent(k: Core) {
    k.current.Some? && k.current.value in k.contexts && k.contexts[k.current.value].handled
  }

  /** Nor does it make a retired context current. */
  predicate Calm(k: Core, k': Core) {
    StaysClosed(k, k') && (RetiredIsCurrent(k') ==> RetiredIsCurrent(k))
  }

  lemma {:induction false} SubmitAllCalm(k: Core, cs: seq<nat>, manager: bool)
    requires forall c <- cs :: c in k.contexts
    ensures Calm(k, SubmitAll(k, cs, manager))
    decreases cs
  {
    if cs != [] { SubmitAllCalm(Submit(k, cs[0], manager), cs[1..], manager); }
  }

  lemma {:induction false} CancelMatchingCalm(k: Core, cs: seq<nat>, request: nat, manager: bool)
    requires forall c <- cs :: c in k.contexts
    ensures Calm(k, CancelMatching(k, cs, request, manager))
    decreases cs
  {
    if cs != [] {
      CancelMatchingCalm(if k.contexts[cs[0]].request == request then CancelContext(k, cs[0], manager) else k,
                                cs[1..], request, manager);
    }
  }

  /** Putting back a context that is handled and cancelled as before changes nothing that matters. */
  lemma PutCalm(k: Core, c: nat, x: Context)
    requires c in k.contexts && x.handled == k.contexts[c].handled && (k.contexts[c].canceled ==> x.canceled)
    ensures Calm(k, Put(k, c, x))
  {}

  lemma SubmitCalm(k: Core, c: nat, manager: bool)
    requires c in k.contexts
    ensures Calm(k, Submit(k, c, manager)) && Calm(k, RequestAdmission(k, c, manager).0)
    ensures Submit(k, c, manager).contexts.Keys == k.contexts.Keys && Submit(k, c, manager).inflight == k.inflight
  {}

  lemma CompleteCalm(k: Core, c: nat, admission: Admission, progress: Progress, manager: bool)
    requires c in k.contexts
    ensures Calm(k, CompleteLaunch(k, c, admission, progress, manager).0)
  {
    hide Submit;
    var x := k.contexts[c];
    var r := Put(k, c, x.(resolved := true, timer := false));
    var f := Put(r, c, r.contexts[c].(observationFailed := true));
    var o := Spawn(r, Observer(c));
    var g := Put(o, c, o.contexts[c].(gateReleased := true));
    SubmitCalm(r, c, manager);
    SubmitCalm(f, c, manager);
    SubmitCalm(g, c, manager);
  }

  lemma HandleCalm(k: Core, c: nat, ok: bool)
    requires c in k.contexts
    ensures Calm(k, HandleRetirement(k, c, ok))
  {}

  lemma ReturnCalm(k: Core, c: nat, flag: bool, manager: bool)
    requires c in k.contexts
    ensures StaysClosed(k, AttachReturned(k, c, flag, manager).0)
    ensures !AttachReturned(k, c, flag, manager).1 ==> Calm(k, AttachReturned(k, c, flag, manager).0)
  {
    hide Submit;
    var x := k.contexts[c].(gateReleased := true);
    PutCalm(k, c, x);
    SubmitCalm(Put(k, c, x), c, manager);
  }

  lemma LaunchCalm(k: Core, request: nat, outcome: LaunchOutcome, manager: bool)
    ensures Calm(k, RequestLaunch(k, request, outcome, manager).0) && Calm(k, Cancel(k))
    ensures Calm(k, RetirementPublished(k, outcome, manager))
  {}

  lemma CancelsCalm(k: Core, request: nat, manager: bool, current: Option<nat>, inflight: seq<nat>)
    ensures CoreKnown(k) ==> Calm(k, CancelLaunch(k, request, manager))
    ensures Known(k, Cancelling(current, inflight)) ==> Calm(k, CancelReturned(k, current, inflight, manager))
  {
    hide CancelMatching, SubmitAll, Submit, CancelCurrent;
    if CoreKnown(k) {
      CurrentCalm(k, request);
      CancelMatchingCalm(CancelCurrent(k, request), k.inflight, request, manager);
    }
    if Known(k, Cancelling(current, inflight)) {
      if current.Some? { SubmitCalm(k, current.value, manager); }
      SubmitAllCalm(if current.Some? then Submit(k, current.value, manager) else k, inflight, manager);
    }
  }

  lemma CurrentCalm(k: Core, request: nat)
    requires CoreKnown(k)
    ensures var k' := CancelCurrent(k, request);
      Calm(k, k') && k'.contexts.Keys == k.contexts.Keys && k'.inflight == k.inflight
  {}

  lemma DropCalm(s: System, i: nat, c: nat, manager: bool)
    requires i < |s.agents|
    ensures Calm(s.core, Drop(s, i, c, manager).core)
  {}

  /** A call and then the end of the agent that made it. */
  lemma CallAndDrop(s: System, k: Core, i: nat, c: nat, manager: bool)
    requires i < |s.agents| && Calm(s.core, k)
    ensures Calm(s.core, Drop(Settle(s, k), i, c, manager).core)
  {
    hide Drop;
    DropCalm(Settle(s, k), i, c, manager);
  }

  lemma PayloadCalm(s: System, i: nat, choice: Choice)
    requires i < |s.agents| && Known(s.core, s.agents[i])
    requires s.agents[i].LaunchThread? || s.agents[i].AdmissionEvent? || s.agents[i].RequestingAdmission?
             || s.agents[i].AdmissionClosure?
    ensures Calm(s.core, Step(s, i, choice).core)
  {
    hide Drop, CompleteLaunch, RequestAdmission;
    var a, k, m := s.agents[i], s.core, choice.manager;
    DropCalm(s, i, a.context, m);
    SubmitCalm(k, a.context, m);
    CompleteCalm(k, a.context, Rejected, choice.progress, m);
    match a
    case AdmissionEvent(c) => CallAndDrop(s, RequestAdmission(k, c, m).0, i, c, m);
    case RequestingAdmission(c) => CallAndDrop(s, CompleteLaunch(k, c, Rejected, choice.progress, m).0, i, c, m);
    case _ =>
  }

  /** The step is the successful return of an attach callback that was not cancelled. */
  predicate Attaches(s: System, i: nat, choice: Choice) {
    && i < |s.agents| && s.agents[i].Attaching? && choice.yes
    && s.agents[i].context in s.core.contexts && !s.core.contexts[s.agents[i].context].canceled
  }

  lemma StepCalm(s: System, i: nat, choice: Choice)
    requires i < |s.agents| && Known(s.core, s.agents[i])
    ensures StaysClosed(s.core, Step(s, i, choice).core)
    ensures !Attaches(s, i, choice) ==> Calm(s.core, Step(s, i, choice).core)
  {
    hide Drop, CompleteLaunch, RequestAdmission, AttachReturned, HandleRetirement, CancelReturned, RetirementPublished, Submit;
    var a, k, m := s.agents[i], s.core, choice.manager;
    match a
    case CompletionEvent(c, admission) =>
      CompleteCalm(k, c, admission, choice.progress, m);
      CallAndDrop(s, CompleteLaunch(k, c, admission, choice.progress, m).0, i, c, m);
    case Attaching(c) =>
      ReturnCalm(k, c, choice.yes, m);
      AttachReturnedWhen(k, c, choice.yes, m);
      if !Attaches(s, i, choice) { CallAndDrop(s, AttachReturned(k, c, choice.yes, m).0, i, c, m); }
    case Announcing(c) =>
      PutCalm(k, c, k.contexts[c].(gateReleased := true));
      DropCalm(s.(core := Put(k, c, k.contexts[c].(gateReleased := true))), i, c, m);
    case Observer(c) =>
      var x := if choice.yes then k.contexts[c] else k.contexts[c].(observationFailed := true);
      PutCalm(k, c, x);
      SubmitCalm(Put(k, c, x), c, m);
    case Cancelling(current, inflight) => CancelsCalm(k, 0, m, current, inflight);
    case RetirementEvent(c, ok) => HandleCalm(k, c, ok);
    case PublishingRetirement(c) => LaunchCalm(k, 0, choice.outcome, m);
    case NotifyingExit(_, _) =>
    case Retiring(_) =>
    case Done =>
    case _ => PayloadCalm(s, i, choice);
  }

  lemma AttachReturnedWhen(k: Core, c: nat, flag: bool, manager: bool)
    requires c in k.contexts
    ensures AttachReturned(k, c, flag, manager).1 <==> flag && !k.contexts[c].canceled
  {}

  /** After cancel no worker is ever launched again, whatever was pending or is still to come. */
  lemma {:induction false} CancelIsFinal(s: System, actions: seq<Action>)
    requires !s.core.accepting
    ensures !Run(s, actions).core.accepting && Run(s, actions).core.contexts.Keys == s.core.contexts.Keys
    decreases actions
  {
    if actions != [] {
      NextCalm(s, actions[0]);
      CancelIsFinal(Next(s, actions[0]), actions[1..]);
    }
  }

  lemma NextCalm(s: System, a: Action)
    ensures StaysClosed(s.core, Next(s, a).core)
    ensures !(a.Act? && Attaches(s, a.agent, a.choice)) ==> Calm(s.core, Next(s, a).core)
  {
    hide Step, CompleteLaunch, RequestLaunch, CancelLaunch;
    match a
    case CallRequestLaunch(request, choice) => LaunchCalm(s.core, request, choice.outcome, choice.manager);
    case CallCancelLaunch(request, choice) => CancelsCalm(s.core, request, choice.manager, None, []);
    case CallCancel =>
    case TimerFires(c, choice) =>
      if c in s.core.contexts { CompleteCalm(s.core, c, Rejected, choice.progress, choice.manager); }
    case Act(i, choice) => if i < |s.agents| && Known(s.core, s.agents[i]) { StepCalm(s, i, choice); }
  }

  // ---- A retired context can become current ------------------------------------------------

  /**
   When an uncancelled attach callback returns successfully its context becomes current,
   and it is then a retired one exactly if it has left the launches in flight.
   */
  lemma AttachedAliveExactlyWhen(actions: seq<Action>, i: nat, choice: Choice)
    requires Attaches(Run(Initial, actions), i, choice)
    ensures var (s, t) := (Run(Initial, actions), Next(Run(Initial, actions), Act(i, choice)));
      var c := s.agents[i].context;
      && t.core.current == Some(c) && c in t.core.contexts
      && (t.core.contexts[c].handled <==> c !in s.core.inflight)
  {
    InitialInv();
    RunInv(Initial, actions);
    hide Run;
    AttachedAlive(Run(Initial, actions), i, choice);
  }

  lemma AttachedAlive(s: System, i: nat, choice: Choice)
    requires Inv(s) && Attaches(s, i, choice)
    ensures var (t, c) := (Next(s, Act(i, choice)), s.agents[i].context);
      t.core.current == Some(c) && c in t.core.contexts && (t.core.contexts[c].handled <==> c !in s.core.inflight)
  {
    var c := s.agents[i].context;
    assert s.agents[i] in s.agents;
    assert AgentOk(s.core, s.agents[i]) && ContextOk(s.core, s.agents, c);
  }

  /**
   The exact condition, for every step of every run: a retired context becomes current
   if and only if an uncancelled attach callback returns successfully for a context
   that is no longer in flight.
   */
  lemma RetiredBecomesCurrentExactlyWhen(actions: seq<Action>, a: Action)
    requires !RetiredIsCurrent(Run(Initial, actions).core)
    ensures var s := Run(Initial, actions);
      RetiredIsCurrent(Next(s, a).core)
      <==> a.Act? && Attaches(s, a.agent, a.choice) && s.agents[a.agent].context !in s.core.inflight
  {
    InitialInv();
    RunInv(Initial, actions);
    hide Run;
    var s := Run(Initial, actions);
    NextCalm(s, a);
    if a.Act? && Attaches(s, a.agent, a.choice) {
      hide Next;
      AttachedAlive(s, a.agent, a.choice);
    }
  }

  const Yes := Choice(true, Accepted, AttachCalled, Launched, true)

  function OneContext(accepting: bool, serial: nat, inflight: seq<nat>, x: Context): Core {
    Core(accepting, serial, None, None, inflight, {}, map[1 := x], [])
  }

  const Launching := Context(7, 0, false, false, false, false, false, false, true, false, false)
  const InAttach := Launching.(resolved := true, timer := false)

  /** The first launch has reached its attach callback. */
  const AtAttach := System(OneContext(true, 1, [1], InAttach),
                           [RequestingAdmission(1), AdmissionClosure(1), Attaching(1), Observer(1)])

  const ToAttach: seq<Action> := [CallRequestLaunch(7, Yes), Act(0, Yes), Act(0, Yes), Act(1, Yes), Act(2, Yes)]

  lemma ReachesAttach()
    ensures Run(Initial, ToAttach) == AtAttach
  {
    var s1 := Next(Initial, CallRequestLaunch(7, Yes));
    assert s1 == System(OneContext(true, 1, [1], NewContext(7)), [LaunchThread(1)]);
    var s2 := Next(s1, Act(0, Yes));
    assert s2 == System(s1.core, [AdmissionEvent(1)]);
    var s3 := Next(s2, Act(0, Yes));
    assert s3.core == OneContext(true, 1, [1], Launching);
    assert s3.agents == [RequestingAdmission(1), AdmissionClosure(1)];
    var s4 := Next(s3, Act(1, Yes));
    assert s4 == System(s3.core, [RequestingAdmission(1), AdmissionClosure(1), CompletionEvent(1, Accepted)]);
    var s5 := Next(s4, Act(2, Yes));
    assert s5.agents == AtAttach.agents;
    assert s5.core == AtAttach.core;
    hide Next;
    IterateThrough(Next, [Initial, s1, s2, s3, s4, s5], ToAttach);
  }

  /** The callback cancels the launcher, lets the retirement be handled and then returns successfully. */
  const CancelInAttach: seq<Action> := [CallCancel, Act(4, Yes), Act(5, Yes), Act(5, Yes), Act(2, Yes)]

  lemma RevivesFromAttach()
    ensures RetiredIsCurrent(Run(AtAttach, CancelInAttach).core)
  {
    var s := AtAttach;
    var s1 := Next(s, CallCancel);
    assert s1 == System(OneContext(false, 2, [1], InAttach), s.agents + [Cancelling(None, [1])]);
    var s2 := Next(s1, Act(4, Yes));
    var x := InAttach.(submitted := 1);
    assert SubmitAll(s1.core, [1], true) == Submit(s1.core, 1, true);
    assert s2 == System(OneContext(false, 2, [1], x), s.agents + [Done, Retiring(1)]);
    var s3 := Next(s2, Act(5, Yes));
    assert s3 == System(s2.core, s.agents + [Done, RetirementEvent(1, true)]);
    var s4 := Next(s3, Act(5, Yes));
    assert Without([1], 1) == [];
    assert s4.core == OneContext(false, 2, [], x.(handled := true));
    assert s4.agents == s.agents + [Done, Done, PublishingRetirement(1)];
    var s5 := Next(s4, Act(2, Yes));
    assert s5.core.current == Some(1) && s5.core.contexts[1].handled;
    hide Next;
    IterateThrough(Next, [s, s1, s2, s3, s4, s5], CancelInAttach);
  }

  /** One run from the start after which a context is current although its retirement was handled. */
  lemma RetiredContextBecomesCurrent()
    ensures RetiredIsCurrent(Run(Initial, ToAttach + CancelInAttach).core)
  {
    ReachesAttach();
    RevivesFromAttach();
    hide Next;
    IterateAppend(Next, Initial, ToAttach, CancelInAttach);
  }
}
