/** How a launch comes out: who is asked for admission, who is attached, and what a retirement result changes. */
module LauncherOutcomes {
  import opened Common
  import opened Launcher
  import opened LauncherSystem
  import opened LauncherInvariant
  import opened LauncherTheorems
  import opened LauncherRequests

  /** The retirement of `c` has been submitted. */
  predicate Given(k: Core, c: nat) { c in k.contexts && k.contexts[c].submitted > 0 }

  /** Of context `c` at most the count of submissions grows; the places of launches stay. */
  predicate Spares(k: Core, k': Core, c: nat) {
    && c in k.contexts && c in k'.contexts && k'.current == k.current && k'.inflight == k.inflight
    && k'.contexts[c] == k.contexts[c].(submitted := k'.contexts[c].submitted) && k'.contexts[c].submitted >= k.contexts[c].submitted
  }

  lemma SubmitGives(k: Core, c: nat, manager: bool)
    requires c in k.contexts
    ensures Given(Submit(k, c, manager), c) && Spares(k, Submit(k, c, manager), c)
  {
    var x := k.contexts[c];
    if x.submitted == 0 {
      var y := x.(submitted := 1);
      var k' := Submit(k, c, manager);
      assert k'.contexts == k.contexts[c := y] && k'.current == k.current && k'.inflight == k.inflight;
      hide Submit;
      assert k'.contexts[c] == y;
    }
  }

  lemma DropSpares(s: System, i: nat, c: nat, manager: bool)
    requires i < |s.agents| && c in s.core.contexts
    ensures var t := Drop(s, i, c, manager);
      Spares(s.core, t.core, c) && |t.agents| >= |s.agents| && t.agents[i] == Done
  {
    hide Submit, Held, Spares;
    var k' := Submit(s.core, c, manager);
    SubmitGives(s.core, c, manager);
    SettledSpares(s.core, k', c);
    SettledSpares(s.core, s.core, c);
    assert Become(s, i, Done).core == s.core;
  }

  lemma SettledSpares(k: Core, k': Core, c: nat)
    requires c in k.contexts
    ensures Spares(k, k, c) && (Spares(k, k', c) ==> Spares(k, k'.(spawned := []), c))
  {}

  /** Admission is asked for exactly the newest launch, while launches are accepted and it is not cancelled; any other is retired. */
  lemma AdmissionIsAskedExactlyWhen(s: System, i: nat, c: nat, choice: Choice)
    requires Inv(s) && i < |s.agents| && s.agents[i] == AdmissionEvent(c) && c in s.core.contexts
    ensures var t := Next(s, Act(i, choice));
      var asks := s.core.accepting && c == s.core.serial && !s.core.contexts[c].canceled;
      && c in t.core.contexts && i < |t.agents|
      && t.agents[i] == (if asks then RequestingAdmission(c) else Done)
      && (asks ==> AdmissionClosure(c) in t.agents && t.core.contexts[c] == s.core.contexts[c].(timer := true))
      && (!asks ==> Given(t.core, c))
  {
    var k := s.core;
    assert k.spawned == [];
    hide Inv, Drop, Submit;
    SubmitGives(k, c, choice.manager);
    var k' := RequestAdmission(k, c, choice.manager).0;
    DropSpares(Settle(s, k'), i, c, choice.manager);
    if RequestAdmission(k, c, choice.manager).1 {
      var t := Next(s, Act(i, choice));
      assert t.agents[|s.agents|] == AdmissionClosure(c);
    }
  }

  /** What completing a launch comes to: nothing the second time, an attach callback, or retirement. */
  predicate Completes(k: Core, k': Core, c: nat, attaches: bool) {
    && c in k.contexts && c in k'.contexts && k'.contexts[c].resolved
    && (k.contexts[c].resolved ==> !attaches && k' == k)
    && (!k.contexts[c].resolved ==>
          && !k'.contexts[c].timer
          && (attaches ==> k'.spawned == k.spawned + [Observer(c)])
          && (attaches ==> k'.contexts[c] == k.contexts[c].(resolved := true, timer := false))
          && (!attaches ==> Given(k', c)))
  }

  lemma CompletesExactlyWhen(k: Core, c: nat, admission: Admission, progress: Progress, manager: bool)
    requires c in k.contexts
    ensures var ((k', attaches), x) := (CompleteLaunch(k, c, admission, progress, manager), k.contexts[c]);
      && Completes(k, k', c, attaches)
      && (attaches <==> !x.resolved && !x.canceled && admission == Accepted && k.accepting && c == k.serial && progress == AttachCalled)
  {
    hide Submit;
    var x := k.contexts[c];
    var r := Put(k, c, x.(resolved := true, timer := false));
    var f := Put(r, c, r.contexts[c].(observationFailed := true));
    var o := Spawn(r, Observer(c));
    var g := Put(o, c, o.contexts[c].(gateReleased := true));
    SubmitGives(r, c, manager);
    SubmitGives(f, c, manager);
    SubmitGives(g, c, manager);
  }

  /**
   The attach callback is called exactly for the newest launch, admitted and not resolved
   before, not cancelled and while launches are accepted, once its worker can be observed
   and is published; otherwise a launch that was not resolved before is retired.
   */
  lemma AttachIsCalledExactlyWhen(s: System, i: nat, c: nat, admission: Admission, choice: Choice)
    requires Inv(s) && i < |s.agents| && s.agents[i] == CompletionEvent(c, admission) && c in s.core.contexts
    ensures var (t, x) := (Next(s, Act(i, choice)), s.core.contexts[c]);
      var attaches := !x.resolved && !x.canceled && admission == Accepted && s.core.accepting && c == s.core.serial
                      && choice.progress == AttachCalled;
      && c in t.core.contexts && i < |t.agents| && t.core.contexts[c].resolved
      && t.agents[i] == (if attaches then Attaching(c) else Done)
      && (attaches ==> Observer(c) in t.agents && t.core.contexts[c].submitted == x.submitted)
      && (!attaches && !x.resolved ==> Given(t.core, c))
  {
    var (k, m) := (s.core, choice.manager);
    assert k.spawned == [];
    hide Inv, Drop, CompleteLaunch;
    CompletesExactlyWhen(k, c, admission, choice.progress, m);
    var (k', attaches) := CompleteLaunch(k, c, admission, choice.progress, m);
    DropSpares(Settle(s, k'), i, c, m);
    if attaches {
      var t := Next(s, Act(i, choice));
      assert t.agents[|s.agents|] == Observer(c);
    }
  }

  /** A timeout, as any rejection, resolves the launch and retires it, unless it was resolved before. */
  lemma TimeoutRetires(s: System, c: nat, choice: Choice)
    requires Inv(s) && c in s.core.contexts && s.core.contexts[c].timer && Held(s.agents, c)
    ensures var t := Next(s, TimerFires(c, choice));
      && c in t.core.contexts && t.core.contexts[c].resolved
      && (!s.core.contexts[c].resolved ==> Given(t.core, c) && !t.core.contexts[c].timer)
      && forall b <- t.agents :: b.Attaching? ==> b in s.agents
  {
    var k := s.core;
    assert k.spawned == [];
    hide Inv;
    CompletesExactlyWhen(k, c, Rejected, choice.progress, choice.manager);
  }

  /** Whether the callback attached the worker, which then is the current one, or it is retired and observed. */
  lemma AttachEndsExactly(s: System, i: nat, c: nat, choice: Choice)
    requires Inv(s) && i < |s.agents| && s.agents[i] == Attaching(c) && c in s.core.contexts
    ensures var (t, x) := (Next(s, Act(i, choice)), s.core.contexts[c]);
      var attached := choice.yes && !x.canceled;
      && c in t.core.contexts && i < |t.agents|
      && (attached ==>
            && t.agents[i] == Announcing(c) && t.core.current == Some(c) && t.core.inflight == Without(s.core.inflight, c)
            && t.core.contexts[c] == x.(consumed := true, attached := true))
      && (!attached ==>
            && t.agents[i] == Done && t.core.current == s.core.current && t.core.inflight == s.core.inflight
            && Given(t.core, c) && t.core.contexts[c].gateReleased && t.core.contexts[c].attached == x.attached)
  {
    var (k, m) := (s.core, choice.manager);
    assert k.spawned == [];
    hide Inv, Drop, AttachReturned;
    ReturnsExactly(k, c, choice.yes, m);
    DropSpares(Settle(s, AttachReturned(k, c, choice.yes, m).0), i, c, m);
  }

  lemma ReturnsExactly(k: Core, c: nat, attached: bool, manager: bool)
    requires c in k.contexts
    ensures var ((k', current), x) := (AttachReturned(k, c, attached, manager), k.contexts[c]);
      && (current <==> attached && !x.canceled) && c in k'.contexts
      && (current ==>
            && k'.current == Some(c) && k'.inflight == Without(k.inflight, c)
            && k'.contexts[c] == x.(consumed := true, attached := true))
      && (!current ==>
            && k'.current == k.current && k'.inflight == k.inflight && Given(k', c)
            && k'.contexts[c].gateReleased && k'.contexts[c].attached == x.attached)
  {
    hide Submit, Without;
    SubmitGives(Put(k, c, k.contexts[c].(gateReleased := true)), c, manager);
  }

  /** What a retirement result changes, and who goes on from there. */
  lemma RetirementIsHandledExactly(s: System, i: nat, c: nat, ok: bool, choice: Choice)
    requires Inv(s) && i < |s.agents| && s.agents[i] == RetirementEvent(c, ok) && c in s.core.contexts
    ensures var (k, t, x) := (s.core, Next(s, Act(i, choice)), s.core.contexts[c]);
      var closes := Closes(k, c, ok);
      && t.core.contexts == k.contexts[c := x.(handled := true, fatalObserved := x.fatalObserved || !ok)]
      && t.core.inflight == Without(k.inflight, c) && t.core.current == (if k.current == Some(c) then None else k.current)
      && (t.core.accepting <==> k.accepting && !closes) && t.core.serial == k.serial
      && t.core.fatal == (if ok then k.fatal - {c} else k.fatal + {c})
      && t.agents == s.agents[i := Done]
                     + (if closes then []
                        else if x.attached && !x.fatalObserved then [NotifyingExit(c, k.serial)] else [PublishingRetirement(c)])
  {}

  /** The only steps that end the acceptance of launches: cancel, and a retirement that failed or whose worker went unobserved. */
  lemma AcceptanceEndsExactlyWhen(s: System, a: Action)
    requires Inv(s) && s.core.accepting
    ensures !Next(s, a).core.accepting
       <==> a.CallCancel? || (a.Act? && a.agent < |s.agents| && s.agents[a.agent].RetirementEvent?
                              && Known(s.core, s.agents[a.agent])
                              && Closes(s.core, s.agents[a.agent].context, s.agents[a.agent].ok))
  {
    var k := s.core;
    match a
    case CallCancelLaunch(request, choice) => CancelReachesExactly(k, request, choice.manager);
    case TimerFires(c, choice) =>
      if c in k.contexts { CallsUndisturbed(k, c, choice.manager, Rejected, choice.progress, false); }
    case Act(i, choice) =>
      if i < |s.agents| && Known(k, s.agents[i]) && !Handles(s.agents[i]) { StepUndisturbed(s, i, choice); }
    case _ =>
  }

  /** An observer that may look retires its worker, and remembers if it could not observe it. */
  lemma ObserverRetires(s: System, i: nat, c: nat, choice: Choice)
    requires Inv(s) && i < |s.agents| && s.agents[i] == Observer(c) && c in s.core.contexts
    ensures var (t, x) := (Next(s, Act(i, choice)), s.core.contexts[c]);
      if !x.gateReleased then t == s
      else
        && c in t.core.contexts && i < |t.agents| && t.agents[i] == Done && Given(t.core, c)
        && t.core.contexts[c] == x.(observationFailed := x.observationFailed || !choice.yes, submitted := t.core.contexts[c].submitted)
  {
    var k := s.core;
    assert k.spawned == [];
    hide Inv, Submit;
    if k.contexts[c].gateReleased {
      SubmitGives(Put(k, c, if choice.yes then k.contexts[c] else k.contexts[c].(observationFailed := true)), c, choice.manager);
    }
  }
}
