/**
 The launcher with everything that races with it.  A run is any sequence of calls and
 of steps by agents; what the outside decides in a step is its choice.
 */
module LauncherSystem {
  import opened Common
  import opened Launcher

  datatype System = System(core: Core, agents: seq<Agent>)

  datatype Choice = Choice(yes: bool, admission: Admission, progress: Progress, outcome: LaunchOutcome, manager: bool)

  datatype Action =
    | CallRequestLaunch(request: nat, choice: Choice)
    | CallCancelLaunch(request: nat, choice: Choice)
    | CallCancel
    | TimerFires(context: nat, choice: Choice)
    | Act(agent: nat, choice: Choice)

  const Initial := System(InitialCore, [])

  /** The agent holds a reference to the ready payload of `c`. */
  predicate Holds(a: Agent, c: nat) {
    && (a.LaunchThread? || a.AdmissionEvent? || a.RequestingAdmission? || a.AdmissionClosure? || a.CompletionEvent?
        || a.Attaching? || a.Announcing?)
    && a.context == c
  }

  predicate Held(agents: seq<Agent>, c: nat) {
    exists a <- agents :: Holds(a, c)
  }

  predicate Known(k: Core, a: Agent) {
    match a
    case Cancelling(current, inflight) =>
      (current.Some? ==> current.value in k.contexts) && forall c <- inflight :: c in k.contexts
    case Done => true
    case _ => a.context in k.contexts
  }

  predicate CoreKnown(k: Core) {
    (k.current.Some? ==> k.current.value in k.contexts) && forall c <- k.inflight :: c in k.contexts
  }

  /** What a call has spawned joins the agents. */
  function Settle(s: System, k: Core): System {
    System(k.(spawned := []), s.agents + k.spawned)
  }

  function Become(s: System, i: nat, a: Agent): System
    requires i < |s.agents|
  {
    s.(agents := s.agents[i := a])
  }

  /** Agent `i` lets its payload go; the last reference destroys a payload that was not consumed. */
  function Drop(s: System, i: nat, c: nat, manager: bool): System
    requires i < |s.agents|
  {
    var t := Become(s, i, Done);
    if c in t.core.contexts && !t.core.contexts[c].consumed && !Held(t.agents, c) then Settle(t, Submit(t.core, c, manager))
    else t
  }

  /** One step.  An action that is not enabled leaves the system as it is. */
  function Next(s: System, a: Action): System {
    match a
    case CallRequestLaunch(request, choice) => Settle(s, RequestLaunch(s.core, request, choice.outcome, choice.manager).0)
    case CallCancelLaunch(request, choice) =>
      if CoreKnown(s.core) then Settle(s, CancelLaunch(s.core, request, choice.manager)) else s
    case CallCancel => Settle(s, Cancel(s.core))
    case TimerFires(c, choice) =>
      if c in s.core.contexts && s.core.contexts[c].timer && Held(s.agents, c) then
        Settle(s, CompleteLaunch(s.core, c, Rejected, choice.progress, choice.manager).0)
      else s
    case Act(i, choice) => if i < |s.agents| && Known(s.core, s.agents[i]) then Step(s, i, choice) else s
  }

  function Step(s: System, i: nat, choice: Choice): System
    requires i < |s.agents| && Known(s.core, s.agents[i])
  {
    var k := s.core;
    match s.agents[i]
    case LaunchThread(c) => if choice.yes then Become(s, i, AdmissionEvent(c)) else Drop(s, i, c, choice.manager)
    case AdmissionEvent(c) =>
      var (k', asked) := RequestAdmission(k, c, choice.manager);
      if asked then Become(Settle(s, k'), i, RequestingAdmission(c)) else Drop(Settle(s, k'), i, c, choice.manager)
    case RequestingAdmission(c) =>
      if choice.yes then Drop(s, i, c, choice.manager)
      else Drop(Settle(s, CompleteLaunch(k, c, Rejected, choice.progress, choice.manager).0), i, c, choice.manager)
    case AdmissionClosure(c) =>
      if choice.yes then s.(agents := s.agents + [CompletionEvent(c, choice.admission)])
      else Drop(s, i, c, choice.manager)
    case CompletionEvent(c, admission) =>
      var (k', attaching) := CompleteLaunch(k, c, admission, choice.progress, choice.manager);
      if attaching then Become(Settle(s, k'), i, Attaching(c)) else Drop(Settle(s, k'), i, c, choice.manager)
    case Attaching(c) =>
      var (k', current) := AttachReturned(k, c, choice.yes, choice.manager);
      if current then Become(Settle(s, k'), i, Announcing(c)) else Drop(Settle(s, k'), i, c, choice.manager)
    case Announcing(c) =>
      Drop(s.(core := Put(k, c, k.contexts[c].(gateReleased := true))), i, c, choice.manager)
    case Observer(c) =>
      if !k.contexts[c].gateReleased then s
      else
        var x := if choice.yes then k.contexts[c] else k.contexts[c].(observationFailed := true);
        Become(Settle(s, Submit(Put(k, c, x), c, choice.manager)), i, Done)
    case Cancelling(current, inflight) => Become(Settle(s, CancelReturned(k, current, inflight, choice.manager)), i, Done)
    case Retiring(c) =>
      if choice.yes then Become(s, i, RetirementEvent(c, true))
      else s.(agents := s.agents + [RetirementEvent(c, false)])
    case RetirementEvent(c, ok) => Become(Settle(s, HandleRetirement(k, c, ok)), i, Done)
    case NotifyingExit(c, serial) => Become(Settle(s, ExitNotified(k, c, serial)), i, Done)
    case PublishingRetirement(c) => Become(Settle(s, RetirementPublished(k, choice.outcome, choice.manager)), i, Done)
    case Done => s
  }

  function Run(s: System, actions: seq<Action>): System {
    Iterate(Next, s, actions)
  }

  // ---- The invariant ---------------------------------------------------------------

  /** At most one context is in flight or current. */
  predicate Shape(k: Core) {
    && k.spawned == [] && CoreKnown(k)
    && |k.inflight| + (if k.current.Some? then 1 else 0) <= 1
    && forall c <- k.contexts :: 1 <= c <= k.serial
  }

  /** An attachment that will succeed if the attach callback says so. */
  predicate CanAttach(k: Core, c: nat)
    requires c in k.contexts
  {
    && !k.contexts[c].gateReleased
    && (forall d <- k.contexts :: d <= c)
    && if k.accepting then c == k.serial && c in k.inflight && k.contexts[c].submitted == 0
       else c in k.inflight || (k.inflight == [] && k.current.None?)
  }

  predicate AgentOk(k: Core, a: Agent) {
    && Known(k, a)
    && match a
       case Attaching(c) =>
         var x := k.contexts[c];
         x.resolved && !x.consumed && (x.canceled || CanAttach(k, c))
       case Announcing(c) => k.contexts[c].consumed
       case Observer(c) => k.contexts[c].resolved
       case Retiring(c) => k.contexts[c].submitted > 0
       case RetirementEvent(c, _) => k.contexts[c].submitted > 0
       case Cancelling(_, _) => !k.accepting
       case _ => true
  }

  /** Someone will see to it that an unsubmitted context is retired. */
  predicate LookedAfter(x: Context, agents: seq<Agent>, c: nat) {
    if x.consumed then Observer(c) in agents && (x.gateReleased || Announcing(c) in agents) else Held(agents, c)
  }

  predicate ContextOk(k: Core, agents: seq<Agent>, c: nat)
    requires c in k.contexts
  {
    var x := k.contexts[c];
    && x.submitted <= 1 && x.attached == x.consumed && (x.consumed || x.gateReleased ==> x.resolved)
    && (x.submitted == 0 ==> (c in k.inflight || k.current == Some(c)) && !x.handled && LookedAfter(x, agents, c))
    && (c in k.inflight ==> !x.consumed && !x.handled)
    && (c !in k.inflight && !x.consumed ==> x.handled)
    && (k.current == Some(c) ==> x.consumed && (k.accepting ==> !x.handled))
    && (k.accepting && c == k.serial && !x.canceled && !x.resolved && Held(agents, c) ==> x.submitted == 0)
    && (Attaching(c) in agents && x.submitted == 0 ==> Observer(c) in agents)
  }

  predicate NoTwin(agents: seq<Agent>) {
    forall i, j :: 0 <= i < j < |agents| && agents[i].Attaching? && agents[j].Attaching? ==> agents[i] != agents[j]
  }

  predicate Inv(s: System) {
    && Shape(s.core)
    && (forall a <- s.agents :: AgentOk(s.core, a))
    && (forall c <- s.core.contexts :: ContextOk(s.core, s.agents, c))
    && NoTwin(s.agents)
  }

  // ---- Small moves that keep it -----------------------------------------------------

  lemma HeldAppend(agents: seq<Agent>, more: seq<Agent>, c: nat)
    ensures Held(agents, c) ==> Held(agents + more, c)
    ensures Held(agents + more, c) ==> Held(agents, c) || Held(more, c)
  {
    if Held(agents, c) {
      var a :| a in agents && Holds(a, c);
      assert a in agents + more;
    }
  }

  /** Agents may be added that attach nothing and hold only payloads that are held already or have no bearing. */
  lemma AppendInv(s: System, b: Agent)
    requires Inv(s) && AgentOk(s.core, b) && !b.Attaching?
    requires forall c <- s.core.contexts :: Holds(b, c) ==> Held(s.agents, c)
    ensures Inv(s.(agents := s.agents + [b]))
  {
    hide AgentOk, CanAttach;
    forall c <- s.core.contexts ensures ContextOk(s.core, s.agents + [b], c) {
      assert ContextOk(s.core, s.agents, c);
      HeldAppend(s.agents, [b], c);
    }
  }

  predicate Submittable(s: System, c: nat)
    requires c in s.core.contexts
  {
    var x := s.core.contexts[c];
    s.core.accepting && !x.canceled ==> Attaching(c) !in s.agents && (c == s.core.serial && !x.resolved ==> !Held(s.agents, c))
  }

  lemma SubmitAgents(k: Core, c: nat, manager: bool, a: Agent)
    requires c in k.contexts && AgentOk(k, a) && (a == Attaching(c) && k.accepting ==> k.contexts[c].canceled)
    ensures AgentOk(Submit(k, c, manager).(spawned := []), a)
  {}

  lemma SubmitInv(s: System, c: nat, manager: bool)
    requires Inv(s) && c in s.core.contexts && Submittable(s, c)
    ensures Inv(Settle(s, Submit(s.core, c, manager)))
  {
    hide AgentOk, CanAttach;
    var k, t := s.core, Settle(s, Submit(s.core, c, manager));
    if k.contexts[c].submitted == 0 {
      var b := if manager then Retiring(c) else RetirementEvent(c, false);
      assert t.agents == s.agents + [b];
      forall a <- s.agents ensures AgentOk(t.core, a) { SubmitAgents(k, c, manager, a); }
      NewRetirement(k, c, manager);
      forall d <- t.core.contexts ensures ContextOk(t.core, t.agents, d) {
        assert ContextOk(k, s.agents, d);
        HeldAppend(s.agents, [b], d);
      }
    } else {
      assert t == s;
    }
  }

  lemma NewRetirement(k: Core, c: nat, manager: bool)
    requires c in k.contexts && k.contexts[c].submitted == 0 && k.spawned == []
    ensures forall a <- Submit(k, c, manager).spawned :: AgentOk(Submit(k, c, manager).(spawned := []), a)
  {}

  /** Flags of a context that are only ever raised, and those without bearing on the invariant. */
  predicate Raises(x: Context, y: Context) {
    && y.submitted == x.submitted && y.attached == x.attached && y.consumed == x.consumed && y.handled == x.handled
    && (x.canceled ==> y.canceled) && (x.resolved ==> y.resolved) && (x.gateReleased ==> y.gateReleased)
    && (y.gateReleased ==> y.resolved)
  }

  lemma RaiseInv(s: System, c: nat, y: Context)
    requires Inv(s) && c in s.core.contexts && Raises(s.core.contexts[c], y)
    requires y.gateReleased && !y.canceled && !s.core.contexts[c].gateReleased ==> Attaching(c) !in s.agents
    ensures Inv(s.(core := Put(s.core, c, y)))
  {
    var k, t := s.core, s.(core := Put(s.core, c, y));
    forall a <- t.agents ensures AgentOk(t.core, a) { RaiseAgents(k, c, y, a); }
    hide AgentOk, CanAttach;
    forall d <- t.core.contexts ensures ContextOk(t.core, t.agents, d) { assert ContextOk(k, s.agents, d); }
  }

  lemma RaiseAgents(k: Core, c: nat, y: Context, a: Agent)
    requires c in k.contexts && AgentOk(k, a) && Raises(k.contexts[c], y)
    requires y.gateReleased && !y.canceled && !k.contexts[c].gateReleased ==> a != Attaching(c)
    ensures AgentOk(Put(k, c, y), a)
  {}

  lemma HeldUpdate(agents: seq<Agent>, i: nat, b: Agent, c: nat)
    requires i < |agents|
    ensures Held(agents[i := b], c) ==> Held(agents, c) || Holds(b, c)
    ensures Held(agents, c) ==> Held(agents[i := b], c) || Holds(agents[i], c)
    ensures Holds(b, c) ==> Held(agents[i := b], c)
  {
    var after := agents[i := b];
    assert after[i] == b;
    if Held(after, c) {
      var j :| 0 <= j < |after| && Holds(after[j], c);
      if j != i { assert after[j] == agents[j] && agents[j] in agents; }
    }
    if Held(agents, c) {
      var j :| 0 <= j < |agents| && Holds(agents[j], c);
      if j != i { assert after[j] == agents[j] && after[j] in after; }
    }
  }

  /** What agent `i` may turn into without anyone losing what looks after it. */
  predicate Replaceable(s: System, i: nat, b: Agent)
    requires i < |s.agents|
  {
    var a, k := s.agents[i], s.core;
    && AgentOk(k, b)
    && (forall c <- k.contexts :: Holds(b, c) ==> Held(s.agents, c))
    && (b.Attaching? ==> b !in s.agents && Observer(b.context) in s.agents)
    && (a.Observer? && a.context in k.contexts ==> k.contexts[a.context].submitted > 0)
    && (a.Announcing? && a.context in k.contexts ==> k.contexts[a.context].gateReleased)
  }

  /** A payload may lose a holder if it keeps another, is consumed, or was submitted. */
  predicate MayLose(s: System, i: nat, b: Agent, c: nat)
    requires i < |s.agents| && c in s.core.contexts
  {
    s.core.contexts[c].consumed || s.core.contexts[c].submitted > 0 || Held(s.agents[i := b], c) || !Holds(s.agents[i], c)
  }

  lemma ReplaceContext(s: System, i: nat, b: Agent, c: nat)
    requires Inv(s) && i < |s.agents| && c in s.core.contexts && Replaceable(s, i, b) && MayLose(s, i, b, c)
    ensures ContextOk(s.core, s.agents[i := b], c)
  {
    hide AgentOk, CanAttach;
    assert ContextOk(s.core, s.agents, c);
    HeldUpdate(s.agents, i, b, c);
    var after := s.agents[i := b];
    forall a | a in s.agents && a != s.agents[i] ensures a in after {
      var j :| 0 <= j < |s.agents| && s.agents[j] == a;
      assert after[j] == a;
    }
  }

  lemma ReplaceInv(s: System, i: nat, b: Agent)
    requires Inv(s) && i < |s.agents| && Replaceable(s, i, b)
    requires forall c <- s.core.contexts :: MayLose(s, i, b, c)
    ensures Inv(Become(s, i, b))
  {
    hide AgentOk, CanAttach, ContextOk, MayLose;
    var t := Become(s, i, b);
    forall a <- t.agents ensures AgentOk(t.core, a) {
      if a != b { assert a in s.agents; }
    }
    forall c <- t.core.contexts ensures ContextOk(t.core, t.agents, c) { ReplaceContext(s, i, b, c); }
    forall m, n | 0 <= m < n < |t.agents| && t.agents[m].Attaching? && t.agents[n].Attaching?
      ensures t.agents[m] != t.agents[n]
    {
      if m != i { assert s.agents[m] in s.agents; }
      if n != i { assert s.agents[n] in s.agents; }
    }
  }
}
