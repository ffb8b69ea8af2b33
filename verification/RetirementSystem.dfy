/**
 The retirement manager with its callers and cleanup threads, interleaved between
 critical sections.  Clients of `retire` and `retryFatal`, and the cleanup threads,
 are agents; each step runs one agent up to its next critical section.
 */
module RetirementSystem {
  import opened Common
  import opened RetirementManager

  /** Where an agent is.  The tickets of `queue` are still to be started by it; `retry` marks retryFatal's caller. */
  datatype Agent =
    | Starting(queue: seq<nat>, retry: bool)
    | Spawning(ticket: nat, queue: seq<nat>, retry: bool)
    | Unavailable(ticket: nat, queue: seq<nat>, retry: bool)
    | Attempting(ticket: nat, attempt: nat, slept: nat)
    | Returned(ticket: nat, attempt: nat, slept: nat, ok: bool)
    | Sleeping(ticket: nat, attempt: nat, slept: nat)
    | Reporting(ticket: nat, ok: bool)
    | Leaving
    | Done

  datatype Report = Report(ticket: nat, ok: bool)

  /** `serialised` says that the clients do not let two calls of retryFatal overlap. */
  datatype System = System(table: Table, agents: seq<Agent>, reports: seq<Report>, serialised: bool)

  datatype Action =
    | CallRetire
    | CallRetryFatal(order: seq<nat>)
    | CallShutdown
    | Claims(agent: nat)
    | Spawns(agent: nat, started: bool)
    | Attempts(agent: nat, ok: bool)
    | Settles(agent: nat)
    | Wakes(agent: nat)
    | Reports(agent: nat)
    | Leaves(agent: nat)

  function Initial(serialised: bool): System {
    System(EmptyTable, [], [], serialised)
  }

  predicate InRetry(a: Agent) {
    (a.Starting? || a.Spawning? || a.Unavailable?) && a.retry
  }

  predicate RetryActive(s: System) {
    exists a <- s.agents :: InRetry(a)
  }

  function At(s: System, i: nat, a: Agent): System
    requires i < |s.agents|
  {
    s.(agents := s.agents[i := a])
  }

  /** One step.  An action that is not enabled leaves the system as it is. */
  function Next(s: System, a: Action): System {
    match a
    case CallRetire =>
      var (m, t) := Accept(s.table);
      if t == 0 then s else s.(table := m, agents := s.agents + [Starting([t], false)])
    case CallRetryFatal(order) =>
      if s.table.shuttingDown || !Lists(s.table, order) || (s.serialised && RetryActive(s)) then s
      else s.(agents := s.agents + [Starting(order, true)])
    case CallShutdown => s.(table := s.table.(shuttingDown := true))
    case _ => if a.agent >= |s.agents| then s else Advance(s, a, a.agent, s.agents[a.agent])
  }

  function Advance(s: System, a: Action, i: nat, here: Agent): System
    requires i < |s.agents|
  {
    match (a, here)
    case (Claims(_), Starting(queue, retry)) =>
      if queue == [] then At(s, i, Done)
      else
        var (m, claimed) := Claim(s.table, queue[0]);
        if claimed then At(s.(table := m), i, Spawning(queue[0], queue[1..], retry))
        else At(s, i, Starting(queue[1..], retry))
    case (Spawns(_, started), Spawning(t, queue, retry)) =>
      if started then
        var u := At(s, i, Starting(queue, retry));
        u.(agents := u.agents + [Attempting(t, 0, 0)])
      else At(s.(table := ThreadUnavailable(s.table, t)), i, Unavailable(t, queue, retry))
    case (Reports(_), Unavailable(t, queue, retry)) =>
      At(s.(reports := s.reports + [Report(t, false)]), i, Starting(queue, retry))
    case (Attempts(_, ok), Attempting(t, k, slept)) => At(s, i, Returned(t, k, slept, ok))
    case (Settles(_), Returned(t, k, slept, ok)) =>
      if ok || k >= |RetryDelays| then At(s.(table := Settle(s.table, t, ok)), i, Reporting(t, ok))
      else At(s.(table := Postpone(s.table, t)), i, Sleeping(t, k, slept))
    case (Wakes(_), Sleeping(t, k, slept)) =>
      if k >= |RetryDelays| then s
      else At(s.(table := Resume(s.table, t)), i, Attempting(t, k + 1, slept + RetryDelays[k]))
    case (Reports(_), Reporting(t, ok)) => At(s.(reports := s.reports + [Report(t, ok)]), i, Leaving)
    case (Leaves(_), Leaving) => At(s.(table := Leave(s.table)), i, Done)
    case _ => s
  }

  function Run(s: System, actions: seq<Action>): System {
    Iterate(Next, s, actions)
  }

  // ---- The invariant --------------------------------------------------------------

  /** Agents between the increment of activeThreads and its decrement. */
  predicate Active(a: Agent) {
    a.Spawning? || a.Attempting? || a.Returned? || a.Sleeping? || a.Reporting? || a.Leaving?
  }

  /** The agent works on the record or is going to start it. */
  predicate Owns(a: Agent, t: nat) {
    match a
    case Starting(queue, _) => t in queue
    case Spawning(u, queue, _) => t == u || t in queue
    case Unavailable(_, queue, _) => t in queue
    case Attempting(u, _, _) => t == u
    case Returned(u, _, _, _) => t == u
    case Sleeping(u, _, _) => t == u
    case _ => false
  }

  function OwnerOf(t: nat): Agent -> bool {
    (a: Agent) => Owns(a, t)
  }

  function Announcing(t: nat): Agent -> bool {
    (a: Agent) => a == Reporting(t, true)
  }

  function Announced(t: nat): Report -> bool {
    (r: Report) => r == Report(t, true)
  }

  predicate Distinct(queue: seq<nat>) {
    forall i, j :: 0 <= i < j < |queue| ==> queue[i] != queue[j]
  }

  /** The record waits in `queue` to be started: it is pending for retire's caller and fatal for retryFatal's. */
  predicate Waits(m: Table, queue: seq<nat>, retry: bool) {
    && Distinct(queue)
    && (forall t <- queue :: t in m.live && t in m.states && m.states[t] == if retry then Fatal else Pending)
  }

  /** What an agent may rely on wherever it is. */
  predicate Sound(m: Table, a: Agent)
    requires forall t <- m.live :: t in m.states
  {
    match a
    case Starting(queue, retry) => Waits(m, queue, retry)
    case Spawning(t, queue, retry) => t in m.live && m.states[t] == Working && t !in queue && Waits(m, queue, retry)
    case Unavailable(t, queue, retry) => t in m.states && t !in queue && Waits(m, queue, retry)
    case Attempting(t, k, slept) => t in m.live && m.states[t] == Working && k <= |RetryDelays| && slept == BackOff(k)
    case Returned(t, k, slept, _) => t in m.live && m.states[t] == Working && k <= |RetryDelays| && slept == BackOff(k)
    case Sleeping(t, k, slept) => t in m.live && m.states[t] == Pending && k < |RetryDelays| && slept == BackOff(k)
    case Reporting(t, _) => t in m.states
    case _ => true
  }

  /** What holds of a ticket: a record not fatal has exactly one owner, and success is final. */
  predicate Accounted(s: System, t: nat)
    requires t in s.table.states
  {
    var owners := Count(s.agents, OwnerOf(t));
    && owners <= 1
    && (t in s.table.live && s.table.states[t] != Fatal ==> owners == 1)
    && (t !in s.table.live ==> owners == 0 && s.table.states[t] == Working)
    && Count(s.agents, Announcing(t)) + Count(s.reports, Announced(t)) == (if t in s.table.live then 0 else 1)
  }

  ghost predicate Inv(s: System) {
    var m := s.table;
    && s.serialised
    && m.live <= m.states.Keys && m.nextTicket >= 1
    && (forall t: nat :: t in m.states <==> 1 <= t < m.nextTicket)
    && m.activeThreads == Count(s.agents, Active)
    && Count(s.agents, InRetry) <= 1
    && (forall a <- s.agents :: Sound(m, a))
    && (forall t <- m.states :: Accounted(s, t))
    && (forall r <- s.reports :: r.ticket in m.states)
  }

  // ---- Every step keeps it -----------------------------------------------------------

  /** Two tables that differ at most at ticket `t`. */
  ghost predicate SameBut(m: Table, m': Table, t: nat) {
    && m'.nextTicket == m.nextTicket
    && m'.states.Keys == m.states.Keys
    && (forall u <- m.states :: u != t ==> m'.states[u] == m.states[u])
    && (forall u: nat :: u != t ==> (u in m'.live <==> u in m.live))
    && m'.live <= m.live
  }

  function Bit(b: bool): nat {
    if b then 1 else 0
  }

  /** What agent `i`, the owner of `t`, may turn into while changing the table at `t` only. */
  ghost predicate Handles(m: Table, m': Table, here: Agent, there: Agent, t: nat)
    requires m.live <= m.states.Keys && SameBut(m, m', t)
  {
    && Owns(here, t) && t in m.live && t in m'.states && !here.Reporting?
    && Sound(m', there)
    && (forall u: nat :: u != t ==> (Owns(there, u) <==> Owns(here, u)))
    && (InRetry(there) ==> InRetry(here))
    && m'.activeThreads + Bit(Active(here)) == m.activeThreads + Bit(Active(there))
    && (t in m'.live && m'.states[t] != Fatal ==> Owns(there, t))
    && (t !in m'.live ==> !Owns(there, t) && m'.states[t] == Working)
    && (there.Reporting? ==> there.ticket == t)
    && (there == Reporting(t, true) <==> t !in m'.live)
  }

  lemma OthersDoNotOwn(s: System, i: nat, t: nat)
    requires Inv(s) && i < |s.agents| && Owns(s.agents[i], t) && t in s.table.states
    ensures forall j :: 0 <= j < |s.agents| && j != i ==> !Owns(s.agents[j], t)
  {
    assert Accounted(s, t);
    forall j | 0 <= j < |s.agents| && j != i ensures !Owns(s.agents[j], t) {
      if Owns(s.agents[j], t) { CountUnique(s.agents, if i < j then i else j, if i < j then j else i, OwnerOf(t)); }
    }
  }

  lemma OthersStaySound(m: Table, m': Table, t: nat, a: Agent)
    requires m.live <= m.states.Keys && SameBut(m, m', t) && Sound(m, a) && !Owns(a, t)
    ensures Sound(m', a)
  {}

  lemma HandledSound(s: System, m': Table, i: nat, there: Agent, t: nat)
    requires Inv(s) && i < |s.agents| && SameBut(s.table, m', t) && Handles(s.table, m', s.agents[i], there, t)
    ensures forall a <- s.agents[i := there] :: Sound(m', a)
  {
    hide Sound, Owns, Accounted;
    OthersDoNotOwn(s, i, t);
    forall a <- s.agents[i := there] ensures Sound(m', a) {
      if a != there {
        var j :| 0 <= j < |s.agents| && a == s.agents[i := there][j] && j != i;
        assert a == s.agents[j] && a in s.agents;
        OthersStaySound(s.table, m', t, a);
      }
    }
  }

  lemma HandledAccounts(s: System, m': Table, i: nat, there: Agent, t: nat, u: nat)
    requires Inv(s) && i < |s.agents| && SameBut(s.table, m', t) && Handles(s.table, m', s.agents[i], there, t)
    requires u in s.table.states
    ensures Accounted(At(s.(table := m'), i, there), u)
  {
    hide Sound, Owns;
    assert Accounted(s, u);
    CountUpdate(s.agents, i, there, OwnerOf(u));
    CountUpdate(s.agents, i, there, Announcing(u));
    if u == t { CountPositive(s.agents, i, OwnerOf(t)); }
  }

  lemma HandledInv(s: System, m': Table, i: nat, there: Agent, t: nat)
    requires Inv(s) && i < |s.agents| && SameBut(s.table, m', t) && Handles(s.table, m', s.agents[i], there, t)
    ensures Inv(At(s.(table := m'), i, there))
  {
    hide Sound, Owns, Accounted;
    var s' := At(s.(table := m'), i, there);
    CountUpdate(s.agents, i, there, Active);
    CountUpdate(s.agents, i, there, InRetry);
    HandledSound(s, m', i, there, t);
    forall u <- m'.states ensures Accounted(s', u) { HandledAccounts(s, m', i, there, t, u); }
  }

  /** The record at the head of a queue can be claimed: nobody else works on it. */
  lemma ClaimHandles(m: Table, here: Agent)
    requires m.live <= m.states.Keys && Sound(m, here) && here.Starting? && here.queue != []
    ensures var (m', claimed) := Claim(m, here.queue[0]);
      claimed && SameBut(m, m', here.queue[0])
      && Handles(m, m', here, Spawning(here.queue[0], here.queue[1..], here.retry), here.queue[0])
  {
    var t, rest := here.queue[0], here.queue[1..];
    assert t in here.queue;
    assert here.queue == [t] + rest;
    assert forall u <- rest :: u in here.queue;
    assert t !in rest;
  }

  lemma ClaimInv(s: System, i: nat)
    requires Inv(s) && i < |s.agents| && s.agents[i].Starting?
    ensures Inv(Advance(s, Claims(i), i, s.agents[i]))
  {
    hide Inv, Handles, SameBut, Claim;
    var here := s.agents[i];
    AgentIsSound(s, i);
    if here.queue == [] {
      PassInv(s, i, Done, s.table.activeThreads, None);
    } else {
      ClaimHandles(s.table, here);
      HandledInv(s, Claim(s.table, here.queue[0]).0, i, Spawning(here.queue[0], here.queue[1..], here.retry), here.queue[0]);
    }
  }

  lemma AgentIsSound(s: System, i: nat)
    requires Inv(s) && i < |s.agents|
    ensures s.table.live <= s.table.states.Keys && Sound(s.table, s.agents[i])
  {
    assert s.agents[i] in s.agents;
  }

  /** An agent that owns neither more nor less than before, and files `report` if there is one. */
  ghost predicate Passes(m: Table, here: Agent, there: Agent, active: int, report: Option<Report>)
    requires m.live <= m.states.Keys
  {
    && Sound(m, there) && (InRetry(there) ==> InRetry(here)) && !there.Reporting?
    && (forall u: nat :: Owns(there, u) <==> Owns(here, u))
    && active + Bit(Active(here)) == m.activeThreads + Bit(Active(there))
    && (report.Some? ==> report.value.ticket in m.states)
    && (here.Reporting? && here.ok ==> report == Some(Report(here.ticket, true)))
    && (report.Some? && report.value.ok ==> here == Reporting(report.value.ticket, true))
  }

  function File(reports: seq<Report>, report: Option<Report>): seq<Report> {
    if report.Some? then reports + [report.value] else reports
  }

  lemma PassAccounts(s: System, i: nat, there: Agent, active: int, report: Option<Report>, u: nat)
    requires Inv(s) && i < |s.agents| && Passes(s.table, s.agents[i], there, active, report) && u in s.table.states
    ensures Accounted(At(s.(table := s.table.(activeThreads := active), reports := File(s.reports, report)), i, there), u)
  {
    hide Owns, Sound;
    assert Accounted(s, u);
    CountUpdate(s.agents, i, there, OwnerOf(u));
    CountUpdate(s.agents, i, there, Announcing(u));
    if report.Some? { CountSnoc(s.reports, report.value, Announced(u)); }
  }

  lemma SoundWhateverTheCount(m: Table, a: Agent, active: int)
    requires m.live <= m.states.Keys && Sound(m, a)
    ensures Sound(m.(activeThreads := active), a)
  {}

  lemma PassInv(s: System, i: nat, there: Agent, active: int, report: Option<Report>)
    requires Inv(s) && i < |s.agents| && Passes(s.table, s.agents[i], there, active, report)
    ensures Inv(At(s.(table := s.table.(activeThreads := active), reports := File(s.reports, report)), i, there))
  {
    hide Owns, Accounted, Sound;
    var m' := s.table.(activeThreads := active);
    var s' := At(s.(table := m', reports := File(s.reports, report)), i, there);
    CountUpdate(s.agents, i, there, Active);
    CountUpdate(s.agents, i, there, InRetry);
    forall a <- s'.agents ensures Sound(m', a) {
      if a != there {
        var j :| 0 <= j < |s'.agents| && a == s'.agents[j] && j != i;
        assert a == s.agents[j] && a in s.agents;
      }
      SoundWhateverTheCount(s.table, a, active);
    }
    forall u <- m'.states ensures Accounted(s', u) { PassAccounts(s, i, there, active, report, u); }
  }

  lemma PlainInv(s: System, i: nat, a: Action)
    requires Inv(s) && i < |s.agents| && (a.Reports? || a.Attempts? || a.Leaves?)
    ensures Inv(Advance(s, a, i, s.agents[i]))
  {
    hide Inv;
    AgentIsSound(s, i);
    match (a, s.agents[i])
    case (Reports(_), Unavailable(t, queue, retry)) =>
      PassInv(s, i, Starting(queue, retry), s.table.activeThreads, Some(Report(t, false)));
    case (Reports(_), Reporting(t, ok)) => PassInv(s, i, Leaving, s.table.activeThreads, Some(Report(t, ok)));
    case (Attempts(_, ok), Attempting(t, k, slept)) => PassInv(s, i, Returned(t, k, slept, ok), s.table.activeThreads, None);
    case (Leaves(_), Leaving) => PassInv(s, i, Done, s.table.activeThreads - 1, None);
    case _ =>
  }

  lemma SettleInv(s: System, i: nat)
    requires Inv(s) && i < |s.agents|
    ensures Inv(Advance(s, Settles(i), i, s.agents[i])) && Inv(Advance(s, Wakes(i), i, s.agents[i]))
  {
    hide Inv;
    AgentIsSound(s, i);
    match s.agents[i]
    case Returned(t, k, slept, ok) =>
      if ok || k >= |RetryDelays| {
        HandledInv(s, Settle(s.table, t, ok), i, Reporting(t, ok), t);
      } else {
        HandledInv(s, Postpone(s.table, t), i, Sleeping(t, k, slept), t);
      }
    case Sleeping(t, k, slept) =>
      BackOffStep(k);
      HandledInv(s, Resume(s.table, t), i, Attempting(t, k + 1, slept + RetryDelays[k]), t);
    case _ =>
  }

  // ---- Steps that add an agent ---------------------------------------------------------

  lemma SpawnInv(s: System, i: nat, started: bool)
    requires Inv(s) && i < |s.agents|
    ensures Inv(Advance(s, Spawns(i, started), i, s.agents[i]))
  {
    hide Inv;
    AgentIsSound(s, i);
    if s.agents[i].Spawning? {
      if started {
        StartedInv(s, i);
      } else {
        var here := s.agents[i];
        UnavailableHandles(s.table, here);
        hide Handles;
        HandledInv(s, ThreadUnavailable(s.table, here.ticket), i, Unavailable(here.ticket, here.queue, here.retry), here.ticket);
      }
    }
  }

  lemma UnavailableHandles(m: Table, here: Agent)
    requires m.live <= m.states.Keys && Sound(m, here) && here.Spawning?
    ensures var m' := ThreadUnavailable(m, here.ticket);
      SameBut(m, m', here.ticket) && Handles(m, m', here, Unavailable(here.ticket, here.queue, here.retry), here.ticket)
  {}

  lemma StartedInv(s: System, i: nat)
    requires Inv(s) && i < |s.agents| && s.agents[i].Spawning?
    ensures Inv(Advance(s, Spawns(i, true), i, s.agents[i]))
  {
    hide Accounted;
    var here := s.agents[i];
    var there, thread := Starting(here.queue, here.retry), Attempting(here.ticket, 0, 0);
    var s' := Advance(s, Spawns(i, true), i, here);
    AgentIsSound(s, i);
    PowersOfTwo();
    assert Sound(s.table, there) && Sound(s.table, thread);
    hide Sound;
    CountUpdate(s.agents, i, there, Active);
    CountUpdate(s.agents, i, there, InRetry);
    CountSnoc(s.agents[i := there], thread, Active);
    CountSnoc(s.agents[i := there], thread, InRetry);
    forall u <- s.table.states ensures Accounted(s', u) { StartedAccounts(s, i, u); }
  }

  lemma StartedAccounts(s: System, i: nat, u: nat)
    requires Inv(s) && i < |s.agents| && s.agents[i].Spawning? && u in s.table.states
    ensures Accounted(Advance(s, Spawns(i, true), i, s.agents[i]), u)
  {
    hide Inv;
    var here := s.agents[i];
    var there, thread := Starting(here.queue, here.retry), Attempting(here.ticket, 0, 0);
    AgentIsSound(s, i);
    TicketAccounted(s, u);
    CountUpdate(s.agents, i, there, OwnerOf(u));
    CountSnoc(s.agents[i := there], thread, OwnerOf(u));
    CountUpdate(s.agents, i, there, Announcing(u));
    CountSnoc(s.agents[i := there], thread, Announcing(u));
  }

  lemma TicketAccounted(s: System, u: nat)
    requires Inv(s) && u in s.table.states
    ensures Accounted(s, u)
  {}

  lemma RetireInv(s: System)
    requires Inv(s)
    ensures Inv(Next(s, CallRetire))
  {
    hide Accounted;
    var t, caller := s.table.nextTicket, Starting([s.table.nextTicket], false);
    var m' := Accept(s.table).0;
    var s' := Next(s, CallRetire);
    if !s.table.shuttingDown {
      CountSnoc(s.agents, caller, Active);
      CountSnoc(s.agents, caller, InRetry);
      forall a <- s'.agents ensures Sound(m', a) {
        if a != caller { assert a in s.agents; }
      }
      forall u <- m'.states ensures Accounted(s', u) { RetiredAccounts(s, u); }
    }
  }

  lemma RetiredAccounts(s: System, u: nat)
    requires Inv(s) && !s.table.shuttingDown && u in Accept(s.table).0.states
    ensures Accounted(Next(s, CallRetire), u)
  {
    var t, caller := s.table.nextTicket, Starting([s.table.nextTicket], false);
    CountSnoc(s.agents, caller, OwnerOf(u));
    CountSnoc(s.agents, caller, Announcing(u));
    if u == t {
      forall a <- s.agents ensures !Owns(a, t) && a != Reporting(t, true) { assert Sound(s.table, a); }
      CountZero(s.agents, OwnerOf(t));
      CountZero(s.agents, Announcing(t));
      CountZero(s.reports, Announced(t));
    } else {
      assert Accounted(s, u);
    }
  }

  lemma RetryInv(s: System, order: seq<nat>)
    requires Inv(s)
    ensures Inv(Next(s, CallRetryFatal(order)))
  {
    hide Accounted;
    var caller, s' := Starting(order, true), Next(s, CallRetryFatal(order));
    if !s.table.shuttingDown && Lists(s.table, order) && !RetryActive(s) {
      CountSnoc(s.agents, caller, Active);
      CountSnoc(s.agents, caller, InRetry);
      CountZero(s.agents, InRetry);
      assert Waits(s.table, order, true);
      forall u <- s.table.states ensures Accounted(s', u) { RetriedAccounts(s, order, u); }
    }
  }

  /** With no other retry under way a fatal record has no owner, so its new one is its only one. */
  lemma RetriedAccounts(s: System, order: seq<nat>, u: nat)
    requires Inv(s) && !s.table.shuttingDown && Lists(s.table, order) && !RetryActive(s) && u in s.table.states
    ensures Accounted(Next(s, CallRetryFatal(order)), u)
  {
    var caller := Starting(order, true);
    assert Accounted(s, u);
    CountSnoc(s.agents, caller, OwnerOf(u));
    CountSnoc(s.agents, caller, Announcing(u));
    if u in order {
      assert u in FatalTickets(s.table);
      forall a <- s.agents ensures !Owns(a, u) { FatalIsUnowned(s.table, a, u); }
      CountZero(s.agents, OwnerOf(u));
    }
  }

  lemma FatalIsUnowned(m: Table, a: Agent, u: nat)
    requires m.live <= m.states.Keys && Sound(m, a) && !InRetry(a) && u in m.states && m.states[u] == Fatal
    ensures !Owns(a, u)
  {}

  lemma NextInv(s: System, a: Action)
    requires Inv(s)
    ensures Inv(Next(s, a))
  {
    match a
    case CallRetire => RetireInv(s);
    case CallRetryFatal(order) => RetryInv(s, order);
    case CallShutdown =>
      forall b <- s.agents ensures Sound(s.table.(shuttingDown := true), b) {}
      forall u <- s.table.states ensures Accounted(Next(s, a), u) { assert Accounted(s, u); }
    case _ => if a.agent < |s.agents| { AdvanceInv(s, a, a.agent); }
  }

  lemma AdvanceInv(s: System, a: Action, i: nat)
    requires Inv(s) && i < |s.agents| && !a.CallRetire? && !a.CallRetryFatal? && !a.CallShutdown? && i == a.agent
    ensures Inv(Advance(s, a, i, s.agents[i]))
  {
    hide Inv;
    if a.Claims? {
      if s.agents[i].Starting? { ClaimInv(s, i); }
    } else if a.Spawns? {
      SpawnInv(s, i, a.started);
    } else if a.Settles? || a.Wakes? {
      SettleInv(s, i);
    } else {
      PlainInv(s, i, a);
    }
  }

  lemma {:induction false} RunInv(s: System, actions: seq<Action>)
    requires Inv(s)
    ensures Inv(Run(s, actions))
    decreases actions
  {
    hide Inv, Next;
    if actions != [] {
      NextInv(s, actions[0]);
      RunInv(Next(s, actions[0]), actions[1..]);
    }
  }
}
