/** Every step of the launcher's system keeps its invariant. */
module LauncherInvariant {
  import opened Common
  import opened Launcher
  import opened LauncherSystem

  // ---- Letting a payload go -----------------------------------------------------------

  lemma ReleaseInv(s: System, i: nat, c: nat, manager: bool)
    requires Inv(s) && i < |s.agents| && c in s.core.contexts && s.core.contexts[c].submitted == 0
    requires Holds(s.agents[i], c) && !s.agents[i].Announcing? && !Held(Become(s, i, Done).agents, c)
    ensures var t := Become(s, i, Done); Inv(Settle(t, Submit(t.core, c, manager)))
  {
    hide AgentOk, CanAttach, ContextOk;
    var t := Become(s, i, Done);
    var u := Settle(t, Submit(t.core, c, manager));
    var b := if manager then Retiring(c) else RetirementEvent(c, false);
    assert u.agents == t.agents + [b];
    NewRetirement(s.core, c, manager);
    assert b in Submit(s.core, c, manager).spawned;
    forall a <- u.agents ensures AgentOk(u.core, a) {
      if a == Done { DoneIsOk(u.core); }
      else if a != b {
        assert a in s.agents && a in t.agents;
        assert a != Attaching(c);
        SubmitAgents(s.core, c, manager, a);
      }
    }
    forall d <- u.core.contexts ensures ContextOk(u.core, u.agents, d) {
      if d == c { SubmittedContext(s, i, c, manager); } else { OtherContext(s, i, c, d, manager); }
    }
    forall m, n | 0 <= m < n < |u.agents| && u.agents[m].Attaching? && u.agents[n].Attaching?
      ensures u.agents[m] != u.agents[n]
    {
      assert n < |s.agents| && m != i && n != i;
    }
  }

  lemma DoneIsOk(k: Core)
    ensures AgentOk(k, Done)
  {}

  lemma SubmittedContext(s: System, i: nat, c: nat, manager: bool)
    requires Inv(s) && i < |s.agents| && c in s.core.contexts && s.core.contexts[c].submitted == 0
    requires !Held(Become(s, i, Done).agents, c)
    ensures var t := Become(s, i, Done);
      var u := Settle(t, Submit(t.core, c, manager)); ContextOk(u.core, u.agents, c)
  {
    hide AgentOk, CanAttach;
    var t := Become(s, i, Done);
    HeldAppend(t.agents, Submit(t.core, c, manager).spawned, c);
    assert ContextOk(s.core, s.agents, c);
  }

  lemma OtherContext(s: System, i: nat, c: nat, d: nat, manager: bool)
    requires Inv(s) && i < |s.agents| && c in s.core.contexts && d in s.core.contexts && d != c
    requires Holds(s.agents[i], c) && !s.agents[i].Announcing?
    ensures var t := Become(s, i, Done);
      var u := Settle(t, Submit(t.core, c, manager)); ContextOk(u.core, u.agents, d)
  {
    hide AgentOk, CanAttach;
    var t := Become(s, i, Done);
    var u := Settle(t, Submit(t.core, c, manager));
    DoneIsOk(s.core);
    HeldUpdate(s.agents, i, Done, d);
    ReplaceContext(s, i, Done, d);
    HeldAppend(t.agents, Submit(t.core, c, manager).spawned, d);
    assert ContextOk(s.core, t.agents, d);
    assert u.core.contexts[d] == s.core.contexts[d];
  }

  lemma DropInv(s: System, i: nat, c: nat, manager: bool)
    requires Inv(s) && i < |s.agents| && c in s.core.contexts && Holds(s.agents[i], c)
    requires s.agents[i].Announcing? ==> s.core.contexts[c].consumed && s.core.contexts[c].gateReleased
    ensures Inv(Drop(s, i, c, manager))
  {
    hide AgentOk, CanAttach, ContextOk;
    DoneIsOk(s.core);
    var t := Become(s, i, Done);
    if !s.core.contexts[c].consumed && !Held(t.agents, c) && s.core.contexts[c].submitted == 0 {
      ReleaseInv(s, i, c, manager);
    } else {
      forall d <- s.core.contexts ensures MayLose(s, i, Done, d) {}
      ReplaceInv(s, i, Done);
      assert Settle(t, t.core) == t;
    }
  }

  /** An agent hands its payload on. */
  lemma HandOnInv(s: System, i: nat, b: Agent, c: nat)
    requires Inv(s) && i < |s.agents| && Holds(s.agents[i], c) && Holds(b, c) && !s.agents[i].Announcing?
    requires AgentOk(s.core, b) && (b.Attaching? ==> b !in s.agents && Observer(c) in s.agents)
    ensures Inv(Become(s, i, b))
  {
    hide AgentOk, CanAttach, ContextOk;
    assert s.agents[i] in s.agents;
    forall d <- s.core.contexts ensures MayLose(s, i, b, d) { HeldUpdate(s.agents, i, b, d); }
    ReplaceInv(s, i, b);
  }

  /** An agent that holds nothing is finished. */
  lemma FinishInv(s: System, i: nat, b: Agent)
    requires Inv(s) && i < |s.agents| && AgentOk(s.core, b) && !b.Attaching? && (forall c <- s.core.contexts :: !Holds(b, c))
    requires forall c <- s.core.contexts :: !Holds(s.agents[i], c)
    requires s.agents[i].Observer? ==> s.agents[i].context in s.core.contexts && s.core.contexts[s.agents[i].context].submitted > 0
    ensures Inv(Become(s, i, b))
  {
    hide AgentOk, CanAttach, ContextOk;
    assert s.agents[i].Announcing? && s.agents[i].context in s.core.contexts ==> Holds(s.agents[i], s.agents[i].context);
    forall d <- s.core.contexts ensures MayLose(s, i, b, d) {}
    ReplaceInv(s, i, b);
  }

  // ---- Admission and completion ----------------------------------------------------------

  lemma SettleTwice(s: System, k: Core, c: nat, manager: bool)
    requires c in k.contexts
    ensures Settle(s, Submit(k, c, manager)) == Settle(Settle(s, k), Submit(Settle(s, k).core, c, manager))
  {
    var b := if manager then Retiring(c) else RetirementEvent(c, false);
    assert s.agents + (k.spawned + [b]) == s.agents + k.spawned + [b];
    assert s.agents + k.spawned + [] == s.agents + k.spawned;
  }

  lemma SettleSame(s: System, k: Core)
    requires k.spawned == []
    ensures Settle(s, k) == s.(core := k)
  {}

  lemma RequestAdmissionInv(s: System, c: nat, manager: bool)
    requires Inv(s) && c in s.core.contexts && Held(s.agents, c)
    ensures Inv(Settle(s, RequestAdmission(s.core, c, manager).0))
  {
    hide AgentOk, CanAttach, ContextOk, Submit;
    if RequestAdmission(s.core, c, manager).1 {
      var y := s.core.contexts[c].(timer := true);
      GateMeansResolved(s, c);
      RaiseInv(s, c, y);
      ClosureIsOk(Put(s.core, c, y), c);
      var r := s.(core := Put(s.core, c, y));
      AppendInv(r, AdmissionClosure(c));
      assert Settle(s, RequestAdmission(s.core, c, manager).0) == r.(agents := r.agents + [AdmissionClosure(c)]);
    } else {
      if s.core.accepting && !s.core.contexts[c].canceled { NoAttachOfOld(s, c); }
      SubmitInv(s, c, manager);
    }
  }

  lemma GateMeansResolved(s: System, c: nat)
    requires Inv(s) && c in s.core.contexts
    ensures s.core.contexts[c].gateReleased ==> s.core.contexts[c].resolved
    ensures Attaching(c) in s.agents ==> s.core.contexts[c].resolved
  {
    assert ContextOk(s.core, s.agents, c);
    if Attaching(c) in s.agents { assert AgentOk(s.core, Attaching(c)); }
  }

  lemma ClosureIsOk(k: Core, c: nat)
    requires c in k.contexts
    ensures AgentOk(k, AdmissionClosure(c)) && AgentOk(k, AdmissionEvent(c)) && AgentOk(k, RequestingAdmission(c))
    ensures forall admission :: AgentOk(k, CompletionEvent(c, admission))
    ensures k.contexts[c].resolved ==> AgentOk(k, Observer(c))
    ensures k.contexts[c].consumed ==> AgentOk(k, Announcing(c))
  {}

  /** While launches are accepted, only the newest context can still attach. */
  lemma NoAttachOfOld(s: System, c: nat)
    requires Inv(s) && c in s.core.contexts && s.core.accepting && c != s.core.serial && !s.core.contexts[c].canceled
    ensures Attaching(c) !in s.agents
  {
    forall a <- s.agents ensures a != Attaching(c) { assert AgentOk(s.core, a); }
  }

  lemma CompleteInv(s: System, c: nat, admission: Admission, progress: Progress, manager: bool)
    requires Inv(s) && c in s.core.contexts && Held(s.agents, c)
    ensures var (k, attaching) := CompleteLaunch(s.core, c, admission, progress, manager);
      var t := Settle(s, k);
      && Inv(t) && c in t.core.contexts
      && (attaching ==> AgentOk(t.core, Attaching(c)) && Attaching(c) !in t.agents && Observer(c) in t.agents)
  {
    hide AgentOk, CanAttach, ContextOk, Submit, Raises;
    var x := s.core.contexts[c];
    GateMeansResolved(s, c);
    if x.resolved {
      SettleSame(s, s.core);
    } else {
      var y := x.(resolved := true, timer := false);
      ResolveInv(s, c, y);
      var r := s.(core := Put(s.core, c, y));
      if x.canceled || admission != Accepted || !s.core.accepting || c != s.core.serial || progress == AuthorityMismatch {
        SubmitInv(r, c, manager);
        SubmitKeeps(r.core, c, manager);
      } else if progress == NoObserverHandle || progress == NoObserverThread {
        ResolveInv(r, c, y.(observationFailed := true));
        SubmitInv(r.(core := Put(r.core, c, y.(observationFailed := true))), c, manager);
        SubmitKeeps(Put(r.core, c, y.(observationFailed := true)), c, manager);
      } else {
        ObservedInv(s, c, r, y);
        if progress == NotPublished {
          UnpublishedInv(s, c, r, y, manager);
          SubmitKeeps(Put(Spawn(r.core, Observer(c)), c, y.(gateReleased := true)), c, manager);
        } else { AttachIsOk(s, c, y); }
      }
    }
  }

  lemma ResolveInv(s: System, c: nat, y: Context)
    requires Inv(s) && c in s.core.contexts
    requires y == s.core.contexts[c].(resolved := true, timer := false)
             || (y == s.core.contexts[c].(observationFailed := true) && y.resolved)
    ensures Inv(s.(core := Put(s.core, c, y)))
  {
    hide AgentOk, CanAttach, ContextOk;
    GateMeansResolved(s, c);
    RaiseInv(s, c, y);
  }

  lemma ObservedInv(s: System, c: nat, r: System, y: Context)
    requires c in s.core.contexts && y.resolved && r == s.(core := Put(s.core, c, y)) && Inv(r)
    ensures Inv(Settle(s, Spawn(r.core, Observer(c))))
  {
    hide AgentOk, CanAttach, ContextOk;
    ClosureIsOk(r.core, c);
    AppendInv(r, Observer(c));
    assert Settle(s, Spawn(r.core, Observer(c))) == r.(agents := r.agents + [Observer(c)]);
  }

  lemma UnpublishedInv(s: System, c: nat, r: System, y: Context, manager: bool)
    requires c in s.core.contexts && y.resolved && r == s.(core := Put(s.core, c, y)) && Attaching(c) !in s.agents
    requires Inv(Settle(s, Spawn(r.core, Observer(c)))) && Shape(s.core)
    ensures var k := Spawn(r.core, Observer(c)); Inv(Settle(s, Submit(Put(k, c, y.(gateReleased := true)), c, manager)))
  {
    hide AgentOk, CanAttach, ContextOk, Submit;
    var k := Spawn(r.core, Observer(c));
    var t := Settle(s, k);
    assert Attaching(c) !in t.agents;
    RaiseInv(t, c, y.(gateReleased := true));
    var u := t.(core := Put(t.core, c, y.(gateReleased := true)));
    SubmitInv(u, c, manager);
    SettleTwice(s, Put(k, c, y.(gateReleased := true)), c, manager);
  }

  /** A context that reaches the attach callback is the newest, is in flight and was never submitted. */
  lemma AttachIsOk(s: System, c: nat, y: Context)
    requires Inv(s) && c in s.core.contexts && Held(s.agents, c) && !s.core.contexts[c].resolved
    requires !s.core.contexts[c].canceled && s.core.accepting && c == s.core.serial
    requires y == s.core.contexts[c].(resolved := true, timer := false)
    ensures var t := Settle(s, Spawn(Put(s.core, c, y), Observer(c)));
      AgentOk(t.core, Attaching(c)) && Attaching(c) !in t.agents && Observer(c) in t.agents
  {
    var t := Settle(s, Spawn(Put(s.core, c, y), Observer(c)));
    GateMeansResolved(s, c);
    assert ContextOk(s.core, s.agents, c);
    assert t.agents[|s.agents|] == Observer(c);
  }

  // ---- The attach callback returns -------------------------------------------------------

  lemma OnlyOneAttaches(s: System, i: nat, j: nat)
    requires Inv(s) && i < |s.agents| && j < |s.agents| && i != j && s.agents[i].Attaching? && s.agents[j].Attaching?
    requires s.agents[i].context in s.core.contexts && !s.core.contexts[s.agents[i].context].canceled
    ensures s.agents[j].context in s.core.contexts && s.core.contexts[s.agents[j].context].canceled
  {
    assert s.agents[i] in s.agents && s.agents[j] in s.agents;
    assert AgentOk(s.core, s.agents[i]) && AgentOk(s.core, s.agents[j]);
  }

  /** In every state only one context is in flight or current, so the newest takes the place of nobody. */
  lemma AttachFacts(s: System, i: nat, c: nat)
    requires Inv(s) && i < |s.agents| && c in s.core.contexts && s.agents[i] == Attaching(c) && !s.core.contexts[c].canceled
    ensures s.core.current.None? && (s.core.inflight == [] || s.core.inflight == [c]) && Without(s.core.inflight, c) == []
    ensures !s.core.contexts[c].consumed && s.core.contexts[c].resolved
    ensures s.core.accepting ==> !s.core.contexts[c].handled
    ensures s.core.contexts[c].submitted == 0 ==> Observer(c) in s.agents
  {
    assert s.agents[i] in s.agents;
    assert AgentOk(s.core, s.agents[i]) && ContextOk(s.core, s.agents, c);
  }

  lemma AttachedInv(s: System, i: nat, c: nat)
    requires Inv(s) && i < |s.agents| && c in s.core.contexts && s.agents[i] == Attaching(c) && !s.core.contexts[c].canceled
    ensures Inv(Become(Settle(s, AttachReturned(s.core, c, true, true).0), i, Announcing(c)))
  {
    hide AgentOk, CanAttach, ContextOk;
    var t := Become(Settle(s, AttachReturned(s.core, c, true, true).0), i, Announcing(c));
    AttachFacts(s, i, c);
    forall j | 0 <= j < |t.agents| ensures AgentOk(t.core, t.agents[j]) {
      if j == i {
        ClosureIsOk(t.core, c);
      } else {
        if s.agents[j].Attaching? { OnlyOneAttaches(s, i, j); }
        assert s.agents[j] in s.agents;
        CurrentAgents(s.core, c, s.agents[j]);
      }
    }
    forall d <- t.core.contexts ensures ContextOk(t.core, t.agents, d) { CurrentContext(s, i, c, d); }
  }

  lemma CurrentAgents(k: Core, c: nat, a: Agent)
    requires c in k.contexts && !k.contexts[c].canceled && AgentOk(k, a)
    requires a.Attaching? ==> a.context in k.contexts && k.contexts[a.context].canceled
    ensures AgentOk(AttachReturned(k, c, true, true).0.(spawned := []), a)
  {}

  lemma CurrentContext(s: System, i: nat, c: nat, d: nat)
    requires Inv(s) && i < |s.agents| && c in s.core.contexts && s.agents[i] == Attaching(c) && !s.core.contexts[c].canceled
    requires d in s.core.contexts
    ensures var t := Become(Settle(s, AttachReturned(s.core, c, true, true).0), i, Announcing(c));
      ContextOk(t.core, t.agents, d)
  {
    hide AgentOk, CanAttach;
    var t := Become(Settle(s, AttachReturned(s.core, c, true, true).0), i, Announcing(c));
    AttachFacts(s, i, c);
    assert ContextOk(s.core, s.agents, d);
    HeldUpdate(s.agents, i, Announcing(c), d);
    assert t.agents[i] == Announcing(c);
    if Observer(d) in s.agents {
      var j :| 0 <= j < |s.agents| && s.agents[j] == Observer(d);
      assert t.agents[j] == Observer(d);
    }
  }

  lemma NotAttachedInv(s: System, i: nat, c: nat, attached: bool, manager: bool)
    requires Inv(s) && i < |s.agents| && c in s.core.contexts && s.agents[i] == Attaching(c)
    requires s.core.contexts[c].canceled || !attached
    ensures Inv(Drop(Settle(s, AttachReturned(s.core, c, attached, manager).0), i, c, manager))
  {
    hide AgentOk, CanAttach, ContextOk, Submit, Held;
    assert s.agents[i] in s.agents;
    GateMeansResolved(s, c);
    ClosureIsOk(s.core, c);
    // The frame is as good as any other holder of the payload now.
    var r := Become(s, i, RequestingAdmission(c));
    HandOnInv(s, i, RequestingAdmission(c), c);
    LastAttaching(s, i, c);
    var y := s.core.contexts[c].(gateReleased := true);
    RaiseInv(r, c, y);
    var u := r.(core := Put(r.core, c, y));
    SubmitInv(u, c, manager);
    SubmitKeeps(u.core, c, manager);
    var k := Submit(u.core, c, manager);
    DropInv(Settle(u, k), i, c, manager);
    DropAgrees(s, u, k, i, c, manager);
  }

  lemma LastAttaching(s: System, i: nat, c: nat)
    requires Inv(s) && i < |s.agents| && s.agents[i] == Attaching(c)
    ensures Attaching(c) !in Become(s, i, RequestingAdmission(c)).agents
  {}

  lemma SubmitKeeps(k: Core, c: nat, manager: bool)
    requires c in k.contexts
    ensures var k' := Submit(k, c, manager);
      && k'.contexts.Keys == k.contexts.Keys && k'.contexts[c].consumed == k.contexts[c].consumed
      && k'.contexts[c].submitted > 0
  {}

  /** Dropping does not depend on what the dropped agent was. */
  lemma DropAgrees(s: System, u: System, k: Core, i: nat, c: nat, manager: bool)
    requires i < |s.agents| && |u.agents| == |s.agents| && u.agents == s.agents[i := u.agents[i]]
    ensures Drop(Settle(u, k), i, c, manager) == Drop(Settle(s, k), i, c, manager)
  {
    assert Become(Settle(u, k), i, Done).agents == Become(Settle(s, k), i, Done).agents;
  }

  // ---- Cancellation -----------------------------------------------------------------------

  lemma CancelInv(s: System)
    requires Inv(s)
    ensures Inv(Settle(s, Cancel(s.core)))
  {
    var t := Settle(s, Cancel(s.core));
    forall a <- s.agents ensures AgentOk(t.core, a) {}
    hide AgentOk, CanAttach, ContextOk;
    CancellingIsOk(s.core);
    var b := Cancelling(s.core.current, s.core.inflight);
    forall c <- t.core.contexts ensures ContextOk(t.core, t.agents, c) { CancelContexts(s, c); }
  }

  lemma CancellingIsOk(k: Core)
    requires CoreKnown(k)
    ensures AgentOk(Cancel(k).(spawned := []), Cancelling(k.current, k.inflight))
  {}

  lemma CancelContexts(s: System, c: nat)
    requires Inv(s) && c in s.core.contexts
    ensures var t := Settle(s, Cancel(s.core)); ContextOk(t.core, t.agents, c)
  {
    hide AgentOk, CanAttach;
    assert ContextOk(s.core, s.agents, c);
    HeldAppend(s.agents, [Cancelling(s.core.current, s.core.inflight)], c);
  }

  /** A context is submitted; the core may already have spawned agents in the same call. */
  lemma SubmitNextInv(s: System, k: Core, c: nat, manager: bool)
    requires Inv(Settle(s, k)) && c in k.contexts && Submittable(Settle(s, k), c)
    ensures Inv(Settle(s, Submit(k, c, manager)))
  {
    hide Inv, Submit;
    SettleTwice(s, k, c, manager);
    SubmitInv(Settle(s, k), c, manager);
  }

  lemma {:induction false} SubmitAllInv(s: System, k: Core, cs: seq<nat>, manager: bool)
    requires Inv(Settle(s, k)) && !k.accepting && forall c <- cs :: c in k.contexts
    ensures Inv(Settle(s, SubmitAll(k, cs, manager)))
    decreases cs
  {
    hide Inv;
    if cs != [] {
      SubmitNextInv(s, k, cs[0], manager);
      SubmitAllInv(s, Submit(k, cs[0], manager), cs[1..], manager);
    }
  }

  lemma CancelReturnedInv(s: System, current: Option<nat>, inflight: seq<nat>, manager: bool)
    requires Inv(s) && !s.core.accepting && Known(s.core, Cancelling(current, inflight))
    ensures Inv(Settle(s, CancelReturned(s.core, current, inflight, manager)))
  {
    assert Settle(s, s.core) == s;
    hide Inv;
    if current.Some? { SubmitNextInv(s, s.core, current.value, manager); }
    SubmitAllInv(s, if current.Some? then Submit(s.core, current.value, manager) else s.core, inflight, manager);
  }

  lemma CancelContextInv(s: System, k: Core, c: nat, manager: bool)
    requires Inv(Settle(s, k)) && c in k.contexts
    ensures Inv(Settle(s, CancelContext(k, c, manager)))
  {
    hide AgentOk, CanAttach, ContextOk, Submit;
    var t, y := Settle(s, k), k.contexts[c].(canceled := true);
    GateMeansResolved(t, c);
    RaiseInv(t, c, y);
    assert Settle(s, Put(k, c, y)) == t.(core := Put(t.core, c, y));
    SubmitNextInv(s, Put(k, c, y), c, manager);
  }

  lemma {:induction false} CancelMatchingInv(s: System, k: Core, cs: seq<nat>, request: nat, manager: bool)
    requires Inv(Settle(s, k)) && forall c <- cs :: c in k.contexts
    ensures Inv(Settle(s, CancelMatching(k, cs, request, manager)))
    decreases cs
  {
    hide Inv;
    if cs != [] {
      if k.contexts[cs[0]].request == request { CancelContextInv(s, k, cs[0], manager); }
      CancelMatchingInv(s, if k.contexts[cs[0]].request == request then CancelContext(k, cs[0], manager) else k,
                        cs[1..], request, manager);
    }
  }

  lemma CancelLaunchInv(s: System, request: nat, manager: bool)
    requires Inv(s)
    ensures Inv(Settle(s, CancelLaunch(s.core, request, manager)))
  {
    var k1 := if s.core.pending == Some(request) then s.core.(pending := None) else s.core;
    PendingInv(s, k1.pending);
    hide AgentOk, CanAttach, ContextOk;
    var t := s.(core := k1);
    assert Settle(s, k1) == t;
    if k1.current.Some? {
      var c := k1.current.value;
      GateMeansResolved(t, c);
      RaiseInv(t, c, k1.contexts[c].(canceled := true));
    }
    var k2 := CancelCurrent(s.core, request);
    assert Inv(Settle(s, k2)) by { assert s.agents + [] == s.agents; }
    CancelMatchingInv(s, k2, s.core.inflight, request, manager);
  }

  /** Which launch is waiting has no bearing on the invariant. */
  lemma PendingInv(s: System, pending: Option<nat>)
    requires Inv(s)
    ensures Inv(s.(core := s.core.(pending := pending)))
  {
    var t := s.(core := s.core.(pending := pending));
    forall a <- t.agents ensures AgentOk(t.core, a) {}
    forall c <- t.core.contexts ensures ContextOk(t.core, t.agents, c) { assert ContextOk(s.core, s.agents, c); }
  }

  // ---- Retirement results and new launches ---------------------------------------------------

  lemma WithoutFacts(s: seq<nat>, c: nat)
    requires |s| <= 1
    ensures |Without(s, c)| <= |s|
    ensures forall d :: d in Without(s, c) <==> d in s && d != c
  {}

  /** What handling a retirement result changes. */
  predicate HandledAs(k: Core, k': Core, c: nat)
    requires c in k.contexts
  {
    && k'.contexts.Keys == k.contexts.Keys && k'.serial == k.serial && (k'.accepting ==> k.accepting)
    && (forall d <- k.contexts :: d != c ==> k'.contexts[d] == k.contexts[d])
    && k'.contexts[c] == k.contexts[c].(handled := true, fatalObserved := k'.contexts[c].fatalObserved)
    && k'.inflight == Without(k.inflight, c)
    && k'.current == if k.current == Some(c) then None else k.current
  }

  lemma HandledFacts(k: Core, c: nat, ok: bool)
    requires c in k.contexts && k.spawned == []
    ensures var k' := HandleRetirement(k, c, ok);
      && HandledAs(k, k', c)
      && (k'.spawned == [] || k'.spawned == [NotifyingExit(c, k.serial)] || k'.spawned == [PublishingRetirement(c)])
  {}

  lemma HandledAgents(k: Core, k': Core, c: nat, a: Agent)
    requires Shape(k) && c in k.contexts && k.contexts[c].submitted > 0 && AgentOk(k, a) && HandledAs(k, k', c)
    ensures AgentOk(k', a)
  {
    WithoutFacts(k.inflight, c);
    if a.Attaching? && !k.contexts[a.context].canceled {
      hide HandledAs;
      HandledAttach(k, k', c, a.context);
    }
  }

  lemma HandledAttach(k: Core, k': Core, c: nat, d: nat)
    requires Shape(k) && c in k.contexts && k.contexts[c].submitted > 0 && HandledAs(k, k', c)
    requires AgentOk(k, Attaching(d)) && !k.contexts[d].canceled
    ensures AgentOk(k', Attaching(d))
  {
    WithoutFacts(k.inflight, c);
    assert CanAttach(k, d);
    assert d in k'.contexts && k'.contexts[d].submitted == k.contexts[d].submitted;
    assert CanAttach(k', d);
  }

  lemma HandledContext(s: System, k': Core, more: seq<Agent>, c: nat, d: nat)
    requires Inv(s) && c in s.core.contexts && s.core.contexts[c].submitted > 0 && d in s.core.contexts
    requires HandledAs(s.core, k', c) && forall a <- more :: a.NotifyingExit? || a.PublishingRetirement?
    ensures ContextOk(k', s.agents + more, d)
  {
    hide AgentOk, CanAttach;
    WithoutFacts(s.core.inflight, c);
    assert ContextOk(s.core, s.agents, d) && ContextOk(s.core, s.agents, c);
    HeldAppend(s.agents, more, d);
  }

  lemma HandleInv(s: System, c: nat, ok: bool)
    requires Inv(s) && c in s.core.contexts && s.core.contexts[c].submitted > 0
    ensures Inv(Settle(s, HandleRetirement(s.core, c, ok)))
  {
    hide AgentOk, CanAttach, ContextOk, HandleRetirement;
    var k := HandleRetirement(s.core, c, ok);
    var t := Settle(s, k);
    HandledFacts(s.core, c, ok);
    WithoutFacts(s.core.inflight, c);
    assert HandledAs(s.core, t.core, c);
    forall a <- s.agents ensures AgentOk(t.core, a) { HandledAgents(s.core, t.core, c, a); }
    NotifierIsOk(t.core, c, s.core.serial);
    forall d <- t.core.contexts ensures ContextOk(t.core, t.agents, d) { HandledContext(s, t.core, k.spawned, c, d); }
  }

  lemma NotifierIsOk(k: Core, c: nat, serial: nat)
    requires c in k.contexts
    ensures AgentOk(k, NotifyingExit(c, serial)) && AgentOk(k, PublishingRetirement(c))
  {}

  /** With nothing in flight or current, whatever is still attaching has been cancelled: a new context is nobody's rival. */
  lemma NewAgents(k: Core, n: nat, x: Context, inflight: seq<nat>, a: Agent)
    requires Shape(k) && k.accepting && k.current.None? && k.inflight == [] && AgentOk(k, a) && n == k.serial + 1
    ensures AgentOk(k.(serial := n), a)
    ensures AgentOk(Put(k.(serial := n), n, x).(inflight := inflight), a)
  {}

  lemma NewestContext(s: System, request: nat, launched: bool, manager: bool, d: nat)
    requires Inv(s) && s.core.accepting && s.core.current.None? && s.core.inflight == []
    requires d in s.core.contexts || d == s.core.serial + 1
    ensures var t := Settle(s, RequestLaunch(s.core, request, if launched then Launched else NotStarted, manager).0);
      ContextOk(t.core, t.agents, d)
  {
    hide CanAttach;
    var k, n := s.core, s.core.serial + 1;
    var t := Settle(s, RequestLaunch(k, request, if launched then Launched else NotStarted, manager).0);
    HeldAppend(s.agents, [t.agents[|s.agents|]], d);
    if d == n {
      forall a <- s.agents ensures !Holds(a, n) && a != Attaching(n) { assert AgentOk(k, a); }
      if launched {
        assert t.agents[|s.agents|] == LaunchThread(n);
        assert Holds(LaunchThread(n), n);
      }
    } else {
      assert ContextOk(k, s.agents, d);
      assert t.core.contexts[d] == k.contexts[d];
    }
  }

  lemma LaunchInv(s: System, request: nat, outcome: LaunchOutcome, manager: bool)
    requires Inv(s)
    ensures Inv(Settle(s, RequestLaunch(s.core, request, outcome, manager).0))
  {
    hide AgentOk, CanAttach, ContextOk;
    var k, n := s.core, s.core.serial + 1;
    var t := Settle(s, RequestLaunch(k, request, outcome, manager).0);
    assert s.agents + [] == s.agents;
    if !k.accepting || outcome == Malformed || outcome == PathInvalid {
    } else if k.current.Some? || k.inflight != [] {
      PendingInv(s, Some(request));
    } else if outcome == TempUnavailable {
      forall a <- s.agents ensures AgentOk(t.core, a) { NewAgents(k, n, Launcher.NewContext(request), [], a); }
      forall d <- t.core.contexts ensures ContextOk(t.core, t.agents, d) { SerialContext(s, d); }
    } else {
      NewLaunchInv(s, request, outcome == Launched, manager);
    }
  }

  lemma SerialContext(s: System, d: nat)
    requires Inv(s) && d in s.core.contexts
    ensures ContextOk(s.core.(serial := s.core.serial + 1), s.agents, d)
  {
    hide AgentOk, CanAttach;
    assert ContextOk(s.core, s.agents, d);
  }

  lemma NewLaunchInv(s: System, request: nat, launched: bool, manager: bool)
    requires Inv(s) && s.core.accepting && s.core.current.None? && s.core.inflight == []
    ensures Inv(Settle(s, RequestLaunch(s.core, request, if launched then Launched else NotStarted, manager).0))
  {
    hide AgentOk, CanAttach, ContextOk;
    var k, n := s.core, s.core.serial + 1;
    var k' := RequestLaunch(k, request, if launched then Launched else NotStarted, manager).0;
    var t := Settle(s, k');
    NewestFacts(k, request, launched, manager);
    forall a <- s.agents ensures AgentOk(t.core, a) { NewAgents(k, n, k'.contexts[n], [n], a); }
    forall d <- t.core.contexts ensures ContextOk(t.core, t.agents, d) { NewestContext(s, request, launched, manager, d); }
    assert |k'.spawned| == 1 && t.agents == s.agents + [k'.spawned[0]];
  }

  lemma NewestFacts(k: Core, request: nat, launched: bool, manager: bool)
    requires Shape(k) && k.accepting && k.current.None? && k.inflight == []
    ensures var (k', n) := (RequestLaunch(k, request, if launched then Launched else NotStarted, manager).0, k.serial + 1);
      && n in k'.contexts && |k'.spawned| == 1
      && k'.(spawned := []) == Put(k.(serial := n), n, k'.contexts[n]).(inflight := [n])
      && AgentOk(k'.(spawned := []), k'.spawned[0]) && !k'.spawned[0].Attaching?
  {
    var n := k.serial + 1;
    var x := Launcher.NewContext(request);
    assert k.contexts[n := x][n := x.(submitted := 1)] == k.contexts[n := x.(submitted := 1)];
    assert [] + [n] == [n];
  }

  // ---- Steps and runs -------------------------------------------------------------------------

  lemma HolderFacts(s: System, i: nat, c: nat)
    requires Inv(s) && i < |s.agents| && Holds(s.agents[i], c)
    ensures c in s.core.contexts && Held(s.agents, c)
  {
    assert s.agents[i] in s.agents;
    assert AgentOk(s.core, s.agents[i]);
  }

  lemma PayloadStepInv(s: System, i: nat, choice: Choice)
    requires Inv(s) && i < |s.agents| && Known(s.core, s.agents[i])
    requires var a := s.agents[i]; a.LaunchThread? || a.AdmissionEvent? || a.RequestingAdmission? || a.AdmissionClosure?
    ensures Inv(Step(s, i, choice))
  {
    hide AgentOk, CanAttach, ContextOk, CompleteLaunch, RequestAdmission, Drop;
    var c := s.agents[i].context;
    HolderFacts(s, i, c);
    ClosureIsOk(s.core, c);
    match s.agents[i]
    case LaunchThread(_) => if choice.yes { HandOnInv(s, i, AdmissionEvent(c), c); } else { DropInv(s, i, c, choice.manager); }
    case AdmissionEvent(_) =>
      RequestAdmissionInv(s, c, choice.manager);
      var (k', asked) := RequestAdmission(s.core, c, choice.manager);
      RequestKeeps(s.core, c, choice.manager);
      ClosureIsOk(k', c);
      SpawnedFree(Settle(s, k').core, k', RequestingAdmission(c));
      if asked { HandOnInv(Settle(s, k'), i, RequestingAdmission(c), c); } else { DropInv(Settle(s, k'), i, c, choice.manager); }
    case RequestingAdmission(_) =>
      if choice.yes {
        DropInv(s, i, c, choice.manager);
      } else {
        CompleteInv(s, c, Rejected, choice.progress, choice.manager);
        DropInv(Settle(s, CompleteLaunch(s.core, c, Rejected, choice.progress, choice.manager).0), i, c, choice.manager);
      }
    case AdmissionClosure(_) =>
      if choice.yes { AppendInv(s, CompletionEvent(c, choice.admission)); } else { DropInv(s, i, c, choice.manager); }
  }

  lemma RequestKeeps(k: Core, c: nat, manager: bool)
    requires c in k.contexts
    ensures RequestAdmission(k, c, manager).0.contexts.Keys == k.contexts.Keys
  {}

  lemma SpawnedFree(k: Core, k': Core, a: Agent)
    requires k == k'.(spawned := []) && AgentOk(k', a)
    ensures AgentOk(k, a)
  {}

  lemma CompletionStepInv(s: System, i: nat, choice: Choice)
    requires Inv(s) && i < |s.agents| && Known(s.core, s.agents[i])
    requires var a := s.agents[i]; a.CompletionEvent? || a.Attaching? || a.Announcing?
    ensures Inv(Step(s, i, choice))
  {
    hide AgentOk, CanAttach, ContextOk, CompleteLaunch, Drop;
    var c := s.agents[i].context;
    HolderFacts(s, i, c);
    match s.agents[i]
    case CompletionEvent(_, admission) =>
      CompleteInv(s, c, admission, choice.progress, choice.manager);
      var (k', attaching) := CompleteLaunch(s.core, c, admission, choice.progress, choice.manager);
      if attaching { HandOnInv(Settle(s, k'), i, Attaching(c), c); } else { DropInv(Settle(s, k'), i, c, choice.manager); }
    case Attaching(_) =>
      if choice.yes && !s.core.contexts[c].canceled {
        AttachedInv(s, i, c);
        assert AttachReturned(s.core, c, choice.yes, choice.manager) == AttachReturned(s.core, c, true, true);
      } else {
        NotAttachedInv(s, i, c, choice.yes, choice.manager);
      }
    case Announcing(_) =>
      AnnouncingFacts(s, i, c);
      var y := s.core.contexts[c].(gateReleased := true);
      RaiseInv(s, c, y);
      DropInv(s.(core := Put(s.core, c, y)), i, c, choice.manager);
  }

  lemma AnnouncingFacts(s: System, i: nat, c: nat)
    requires Inv(s) && i < |s.agents| && s.agents[i] == Announcing(c)
    ensures c in s.core.contexts && s.core.contexts[c].consumed && s.core.contexts[c].resolved && Attaching(c) !in s.agents
  {
    assert s.agents[i] in s.agents;
    assert AgentOk(s.core, s.agents[i]) && ContextOk(s.core, s.agents, c);
    forall a <- s.agents ensures a != Attaching(c) { assert AgentOk(s.core, a); }
  }

  lemma EventStepInv(s: System, i: nat, choice: Choice)
    requires Inv(s) && i < |s.agents| && Known(s.core, s.agents[i])
    requires var a := s.agents[i];
      a.Cancelling? || a.Retiring? || a.RetirementEvent? || a.NotifyingExit? || a.PublishingRetirement? || a.Done?
    ensures Inv(Step(s, i, choice))
  {
    hide CanAttach, ContextOk, HandleRetirement, CancelReturned, RequestLaunch;
    var a, k := s.agents[i], s.core;
    assert a in s.agents;
    assert AgentOk(k, a);
    DoneIsOk(k);
    match a
    case Cancelling(current, inflight) =>
      CancelReturnedInv(s, current, inflight, choice.manager);
      EndInv(Settle(s, CancelReturned(k, current, inflight, choice.manager)), i);
    case Retiring(c) =>
      if choice.yes { FinishInv(s, i, RetirementEvent(c, true)); } else { AppendInv(s, RetirementEvent(c, false)); }
    case RetirementEvent(c, ok) =>
      HandleInv(s, c, ok);
      EndInv(Settle(s, HandleRetirement(k, c, ok)), i);
    case NotifyingExit(c, serial) =>
      assert s.agents + [] == s.agents;
      if k.serial == serial {
        AppendInv(s, PublishingRetirement(c));
        assert Settle(s, ExitNotified(k, c, serial)) == s.(agents := s.agents + [PublishingRetirement(c)]);
      } else {
        assert Settle(s, ExitNotified(k, c, serial)) == s;
      }
      EndInv(Settle(s, ExitNotified(k, c, serial)), i);
    case PublishingRetirement(c) =>
      assert s.agents + [] == s.agents;
      PendingInv(s, None);
      var r := s.(core := k.(pending := None));
      if k.pending.Some? { LaunchInv(r, k.pending.value, choice.outcome, choice.manager); }
      EndInv(Settle(s, RetirementPublished(k, choice.outcome, choice.manager)), i);
    case Done =>
  }

  lemma EndInv(s: System, i: nat)
    requires Inv(s) && i < |s.agents| && !s.agents[i].Observer? && forall c <- s.core.contexts :: !Holds(s.agents[i], c)
    ensures Inv(Become(s, i, Done))
  {
    hide AgentOk, CanAttach, ContextOk;
    DoneIsOk(s.core);
    FinishInv(s, i, Done);
  }

  lemma ObserverStepInv(s: System, i: nat, choice: Choice)
    requires Inv(s) && i < |s.agents| && Known(s.core, s.agents[i]) && s.agents[i].Observer?
    ensures Inv(Step(s, i, choice))
  {
    hide AgentOk, CanAttach, ContextOk, Submit;
    var c, k := s.agents[i].context, s.core;
    if k.contexts[c].gateReleased {
      ReleasedFacts(s, c);
      var x := if choice.yes then k.contexts[c] else k.contexts[c].(observationFailed := true);
      RaiseInv(s, c, x);
      var r := s.(core := Put(k, c, x));
      SubmitInv(r, c, choice.manager);
      SubmitKeeps(r.core, c, choice.manager);
      DoneIsOk(Settle(r, Submit(r.core, c, choice.manager)).core);
      FinishInv(Settle(r, Submit(r.core, c, choice.manager)), i, Done);
    }
  }

  lemma ReleasedFacts(s: System, c: nat)
    requires Inv(s) && c in s.core.contexts && s.core.contexts[c].gateReleased
    ensures s.core.contexts[c].resolved
    ensures !s.core.contexts[c].canceled ==> Attaching(c) !in s.agents
  {
    assert ContextOk(s.core, s.agents, c);
    forall a <- s.agents ensures a == Attaching(c) ==> s.core.contexts[c].canceled { assert AgentOk(s.core, a); }
  }

  lemma StepInv(s: System, i: nat, choice: Choice)
    requires Inv(s) && i < |s.agents| && Known(s.core, s.agents[i])
    ensures Inv(Step(s, i, choice))
  {
    hide Inv, Step;
    var a := s.agents[i];
    if a.LaunchThread? || a.AdmissionEvent? || a.RequestingAdmission? || a.AdmissionClosure? {
      PayloadStepInv(s, i, choice);
    } else if a.CompletionEvent? || a.Attaching? || a.Announcing? {
      CompletionStepInv(s, i, choice);
    } else if a.Observer? {
      ObserverStepInv(s, i, choice);
    } else {
      EventStepInv(s, i, choice);
    }
  }

  lemma NextInv(s: System, a: Action)
    requires Inv(s)
    ensures Inv(Next(s, a))
  {
    hide Inv, Step, CompleteLaunch, RequestLaunch, CancelLaunch;
    match a
    case CallRequestLaunch(request, choice) => LaunchInv(s, request, choice.outcome, choice.manager);
    case CallCancelLaunch(request, choice) => if CoreKnown(s.core) { CancelLaunchInv(s, request, choice.manager); }
    case CallCancel => CancelInv(s);
    case TimerFires(c, choice) =>
      if c in s.core.contexts && s.core.contexts[c].timer && Held(s.agents, c) {
        CompleteInv(s, c, Rejected, choice.progress, choice.manager);
      }
    case Act(i, choice) => if i < |s.agents| && Known(s.core, s.agents[i]) { StepInv(s, i, choice); }
  }

  lemma {:induction false} RunInv(s: System, actions: seq<Action>)
    requires Inv(s)
    ensures Inv(Run(s, actions))
    decreases actions
  {
    hide Inv, Next;
    if actions != [] {
      NextInv(s, actions[0]);
      RunInv(Next(s, actions[0]), actions[1..]);
    }
  }
}
