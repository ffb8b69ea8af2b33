/** What the retirement manager guarantees, and what it needs its clients to do for that. */
module RetirementTheorems {
  import opened Common
  import opened RetirementManager
  import opened RetirementSystem

  lemma InitialInv()
    ensures Inv(Initial(true))
  {}

  /**
   In every interleaving in which calls of retryFatal do not overlap: activeThreads
   is the number of threads between their start and their last decrement; a record
   has at most one owner, and exactly one unless it has failed for good or is gone.
   */
  lemma EveryRecordHasOneOwner(actions: seq<Action>)
    ensures var s := Run(Initial(true), actions);
      && s.table.activeThreads == Count(s.agents, Active)
      && forall t <- s.table.states ::
           && Count(s.agents, OwnerOf(t)) <= 1
           && (t in s.table.live && s.table.states[t] != Fatal ==> Count(s.agents, OwnerOf(t)) == 1)
           && (t !in s.table.live ==> Count(s.agents, OwnerOf(t)) == 0)
  {
    InitialInv();
    RunInv(Initial(true), actions);
    hide Run;
    var s := Run(Initial(true), actions);
    forall t <- s.table.states ensures Accounted(s, t) {}
  }

  /** No two threads ever attempt the same record at once. */
  lemma AttemptsDoNotOverlap(actions: seq<Action>, i: nat, j: nat)
    requires var s := Run(Initial(true), actions); i < j < |s.agents| && s.agents[i].Attempting? && s.agents[j].Attempting?
    ensures var s := Run(Initial(true), actions); s.agents[i].ticket != s.agents[j].ticket
  {
    var s := Run(Initial(true), actions);
    EveryRecordHasOneOwner(actions);
    InitialInv();
    RunInv(Initial(true), actions);
    AgentIsSound(s, i);
    if s.agents[i].ticket == s.agents[j].ticket { CountUnique(s.agents, i, j, OwnerOf(s.agents[i].ticket)); }
  }

  /** A thread makes at most seven attempts and sleeps at most 1575 ms between them. */
  lemma RetryIsBounded(actions: seq<Action>, i: nat)
    requires i < |Run(Initial(true), actions).agents|
    ensures var a := Run(Initial(true), actions).agents[i];
      a.Attempting? || a.Returned? || a.Sleeping? ==> a.attempt < 7 && a.slept == BackOff(a.attempt) && a.slept <= 1575
  {
    hide Run, Inv;
    InitialInv();
    RunInv(Initial(true), actions);
    AgentIsSound(Run(Initial(true), actions), i);
    PowersOfTwo();
  }

  /** Success is reported at most once for a ticket, and only after the record has left the table for good. */
  lemma SuccessIsReportedOnce(actions: seq<Action>, t: nat)
    ensures var s := Run(Initial(true), actions);
      && Count(s.reports, Announced(t)) <= 1
      && (Count(s.reports, Announced(t)) == 1 ==>
            t in s.table.states && t !in s.table.live && Count(s.agents, OwnerOf(t)) == 0)
  {
    InitialInv();
    RunInv(Initial(true), actions);
    hide Run;
    var s := Run(Initial(true), actions);
    if t in s.table.states {
      assert Accounted(s, t);
    } else {
      CountZero(s.reports, Announced(t));
    }
  }

  // ---- Claims -------------------------------------------------------------------------------

  /** Whatever else goes on: of two agents about to start one record, the second to claim it at once is sent on without it. */
  lemma ClaimIsExclusive(s: System, i: nat, j: nat, t: nat, rest: seq<nat>, more: seq<nat>, retry: bool, again: bool)
    requires i < |s.agents| && j < |s.agents| && i != j
    requires s.agents[i] == Starting([t] + rest, retry) && s.agents[j] == Starting([t] + more, again)
    ensures var s1 := Next(s, Claims(i));
      var s2 := Next(s1, Claims(j));
      && s2.agents[j] == Starting(more, again) && s2.table == s1.table
      && (s1.table.activeThreads == s.table.activeThreads + 1 <==> s1.agents[i] == Spawning(t, rest, retry))
      && (s1.agents[i] == Spawning(t, rest, retry) <==> !(t in s.table.states && s.table.states[t] == Working))
  {
    assert ([t] + rest)[1..] == rest && ([t] + more)[1..] == more;
  }

  /** The agent works on a record that has not been reported on since it was claimed. */
  predicate Unreported(a: Agent) {
    a.Spawning? || a.Unavailable? || a.Attempting? || a.Returned? || a.Sleeping? || a.Reporting?
  }

  /** The step claims a record. */
  predicate ClaimsOne(s: System, a: Action) {
    && a.Claims? && a.agent < |s.agents| && s.agents[a.agent].Starting? && s.agents[a.agent].queue != []
    && !(s.agents[a.agent].queue[0] in s.table.states && s.table.states[s.agents[a.agent].queue[0]] == Working)
  }

  function ClaimsMade(s: System, actions: seq<Action>): nat
    decreases actions
  {
    if actions == [] then 0 else (if ClaimsOne(s, actions[0]) then 1 else 0) + ClaimsMade(Next(s, actions[0]), actions[1..])
  }

  lemma StepReports(s: System, a: Action)
    ensures var t := Next(s, a);
      Count(t.agents, Unreported) + |t.reports| == Count(s.agents, Unreported) + |s.reports| + if ClaimsOne(s, a) then 1 else 0
  {
    match a
    case CallRetire => CountSnoc(s.agents, Starting([Accept(s.table).1], false), Unreported);
    case CallRetryFatal(order) => CountSnoc(s.agents, Starting(order, true), Unreported);
    case CallShutdown =>
    case Spawns(i, started) =>
      if i < |s.agents| {
        if started && s.agents[i].Spawning? { SpawnReports(s, i); } else { AdvanceReports(s, a, i); }
      }
    case _ => if a.agent < |s.agents| { AdvanceReports(s, a, a.agent); }
  }

  lemma SpawnReports(s: System, i: nat)
    requires i < |s.agents| && s.agents[i].Spawning?
    ensures Count(Advance(s, Spawns(i, true), i, s.agents[i]).agents, Unreported) == Count(s.agents, Unreported)
  {
    var x := s.agents[i];
    CountUpdate(s.agents, i, Starting(x.queue, x.retry), Unreported);
    CountSnoc(s.agents[i := Starting(x.queue, x.retry)], Attempting(x.ticket, 0, 0), Unreported);
  }

  /** Any other step of an agent changes only the agent itself. */
  lemma AdvanceReports(s: System, a: Action, i: nat)
    requires i < |s.agents| && !a.CallRetire? && !a.CallRetryFatal? && !a.CallShutdown? && i == a.agent
    requires !(a.Spawns? && a.started && s.agents[i].Spawning?)
    ensures var t := Advance(s, a, i, s.agents[i]);
      Count(t.agents, Unreported) + |t.reports| == Count(s.agents, Unreported) + |s.reports| + if ClaimsOne(s, a) then 1 else 0
  {
    var t := Advance(s, a, i, s.agents[i]);
    assert s.agents[i := s.agents[i]] == s.agents;
    CountUpdate(s.agents, i, t.agents[i], Unreported);
    hide Count;
    assert t.agents == s.agents[i := t.agents[i]];
  }

  /** On every run, serialised or not: each claim of a record is reported on once, or still worked on. */
  lemma {:induction false} EveryClaimIsReportedOnce(s: System, actions: seq<Action>)
    ensures var t := Run(s, actions);
      Count(t.agents, Unreported) + |t.reports| == Count(s.agents, Unreported) + |s.reports| + ClaimsMade(s, actions)
    decreases actions
  {
    hide Next;
    if actions != [] {
      StepReports(s, actions[0]);
      EveryClaimIsReportedOnce(Next(s, actions[0]), actions[1..]);
    }
  }

  predicate Over(s: System) {
    s.table.shuttingDown && Idle(s.table)
  }

  /** With no record left nobody owns anything, so nothing can start again. */
  lemma OverNext(s: System, a: Action)
    requires Inv(s) && Over(s)
    ensures Over(Next(s, a))
  {
    match a
    case CallRetire =>
    case CallRetryFatal(order) =>
    case CallShutdown =>
    case _ =>
      if a.agent < |s.agents| {
        AgentIsSound(s, a.agent);
        if Active(s.agents[a.agent]) { CountPositive(s.agents, a.agent, Active); }
        IdleAdvance(s, a, a.agent);
      }
  }

  lemma IdleAdvance(s: System, a: Action, i: nat)
    requires i < |s.agents| && Over(s) && s.table.live <= s.table.states.Keys
    requires Sound(s.table, s.agents[i]) && !Active(s.agents[i])
    ensures Over(Advance(s, a, i, s.agents[i]))
  {
    if s.agents[i].Starting? && s.agents[i].queue != [] { assert s.agents[i].queue[0] in s.agents[i].queue; }
  }

  /** Once shutdownChecked has seen the manager idle, it stays idle for ever. */
  lemma {:induction false} CheckedShutdownIsFinal(s: System, actions: seq<Action>)
    requires Inv(s) && Over(s)
    ensures Idle(Run(s, actions).table)
    decreases actions
  {
    hide Inv, Next;
    if actions != [] {
      NextInv(s, actions[0]);
      OverNext(s, actions[0]);
      CheckedShutdownIsFinal(Next(s, actions[0]), actions[1..]);
    }
  }

  /** The agent acts for a caller of retire or retryFatal. */
  predicate ActsForCaller(a: Agent) { a.Starting? || a.Spawning? || a.Unavailable? }

  lemma StepAdmits(s: System, a: Action)
    requires s.table.shuttingDown
    ensures var t := Next(s, a);
      && t.table.shuttingDown && t.table.nextTicket == s.table.nextTicket
      && Count(t.agents, ActsForCaller) <= Count(s.agents, ActsForCaller)
  {
    match a
    case CallRetire =>
    case CallRetryFatal(order) =>
    case CallShutdown =>
    case Spawns(i, started) =>
      if i < |s.agents| && s.agents[i].Spawning? {
        var x := s.agents[i];
        CountUpdate(s.agents, i, Starting(x.queue, x.retry), ActsForCaller);
        CountUpdate(s.agents, i, Unavailable(x.ticket, x.queue, x.retry), ActsForCaller);
        CountSnoc(s.agents[i := Starting(x.queue, x.retry)], Attempting(x.ticket, 0, 0), ActsForCaller);
      }
    case _ => if a.agent < |s.agents| { AdvanceAdmits(s, a, a.agent); }
  }

  lemma AdvanceAdmits(s: System, a: Action, i: nat)
    requires i < |s.agents| && !a.CallRetire? && !a.CallRetryFatal? && !a.CallShutdown? && !a.Spawns? && i == a.agent
    ensures var t := Advance(s, a, i, s.agents[i]);
      && t.table.shuttingDown == s.table.shuttingDown && t.table.nextTicket == s.table.nextTicket
      && Count(t.agents, ActsForCaller) <= Count(s.agents, ActsForCaller)
  {
    var t := Advance(s, a, i, s.agents[i]);
    assert s.agents[i := s.agents[i]] == s.agents;
    CountUpdate(s.agents, i, t.agents[i], ActsForCaller);
    hide Count;
    assert t.agents == s.agents[i := t.agents[i]];
  }

  /** Once shutdown has begun, nothing is accepted and no call brings in work: only callers that were there already go on. */
  lemma {:induction false} ShutdownAdmitsNothing(s: System, actions: seq<Action>)
    requires s.table.shuttingDown
    ensures var t := Run(s, actions);
      && t.table.shuttingDown && t.table.nextTicket == s.table.nextTicket
      && Count(t.agents, ActsForCaller) <= Count(s.agents, ActsForCaller)
    decreases actions
  {
    hide Next;
    if actions != [] {
      StepAdmits(s, actions[0]);
      ShutdownAdmitsNothing(Next(s, actions[0]), actions[1..]);
    }
  }

  // ---- What overlapping retries would do --------------------------------------------------

  predicate Clash(s: System) {
    exists i, j :: 0 <= i < j < |s.agents| && s.agents[i].Attempting? && s.agents[j].Attempting?
                   && s.agents[i].ticket == s.agents[j].ticket
  }

  /** One ticket fails to start; two callers of retryFatal then both collect it. */
  function BothCollect(): System {
    System(Table(map[1 := Fatal], {1}, 2, 0, false), [Done, Starting([1], true), Starting([1], true)],
           [Report(1, false)], false)
  }

  const ToCollect: seq<Action> :=
    [CallRetire, Claims(0), Spawns(0, false), Reports(0), Claims(0), CallRetryFatal([1]), CallRetryFatal([1])]

  lemma BothCanCollect()
    ensures Run(Initial(false), ToCollect) == BothCollect()
  {
    var s0 := Initial(false);
    var s1 := Next(s0, CallRetire);
    assert s1.agents == [Starting([1], false)];
    var s2 := Next(s1, Claims(0));
    assert [1][1..] == [];
    assert s2.agents == [Spawning(1, [], false)];
    var s3 := Next(s2, Spawns(0, false));
    assert s3 == System(Table(map[1 := Fatal], {1}, 2, 0, false), [Unavailable(1, [], false)], [], false);
    var s4 := Next(s3, Reports(0));
    var s5 := Next(s4, Claims(0));
    assert s5 == System(Table(map[1 := Fatal], {1}, 2, 0, false), [Done], [Report(1, false)], false);
    assert 1 in FatalTickets(s5.table) && Lists(s5.table, [1]);
    var s6 := Next(s5, CallRetryFatal([1]));
    var s7 := Next(s6, CallRetryFatal([1]));
    assert s7 == BothCollect();
    hide Next;
    IterateThrough(Next, [s0, s1, s2, s3, s4, s5, s6, s7], ToCollect);
  }

  const ToClash: seq<Action> :=
    [Claims(1), Spawns(1, true), Attempts(3, false), Settles(3), Claims(2), Spawns(2, true), Wakes(3)]

  /**
   The first caller starts the record, which is put back to pending while its thread
   sleeps; the second, which had collected it as fatal, then starts it again.
   */
  lemma CollectorsClash()
    ensures Clash(Run(BothCollect(), ToClash))
  {
    var s0 := BothCollect();
    assert [1][1..] == [];
    var s1 := Next(s0, Claims(1));
    assert s1.agents == [Done, Spawning(1, [], true), Starting([1], true)];
    var s2 := Next(s1, Spawns(1, true));
    assert s2.agents == [Done, Starting([], true), Starting([1], true), Attempting(1, 0, 0)];
    var s3 := Next(s2, Attempts(3, false));
    var s4 := Next(s3, Settles(3));
    assert s4.agents == [Done, Starting([], true), Starting([1], true), Sleeping(1, 0, 0)];
    assert s4.table.states[1] == Pending;
    var s5 := Next(s4, Claims(2));
    assert s5.agents == [Done, Starting([], true), Spawning(1, [], true), Sleeping(1, 0, 0)];
    var s6 := Next(s5, Spawns(2, true));
    assert s6.agents == [Done, Starting([], true), Starting([], true), Sleeping(1, 0, 0), Attempting(1, 0, 0)];
    var s7 := Next(s6, Wakes(3));
    assert s7.agents[3].Attempting? && s7.agents[4].Attempting?;
    hide Next;
    IterateThrough(Next, [s0, s1, s2, s3, s4, s5, s6, s7], ToClash);
  }

  /** Without that discipline one record can be attempted by two threads at once: a run from the start. */
  lemma OverlappingRetriesClash()
    ensures Clash(Run(Initial(false), ToCollect + ToClash))
  {
    BothCanCollect();
    CollectorsClash();
    hide Next, Clash;
    IterateAppend(Next, Initial(false), ToCollect, ToClash);
  }

  /** Records are safe from a second thread on every run exactly if retryFatal's callers do not overlap. */
  lemma SafeExactlyIfSerialised(serialised: bool)
    ensures (forall actions :: !Clash(Run(Initial(serialised), actions))) <==> serialised
  {
    hide Run;
    if serialised {
      forall actions ensures !Clash(Run(Initial(true), actions)) {
        var s := Run(Initial(true), actions);
        forall i, j | 0 <= i < j < |s.agents| && s.agents[i].Attempting? && s.agents[j].Attempting?
          ensures s.agents[i].ticket != s.agents[j].ticket
        {
          AttemptsDoNotOverlap(actions, i, j);
        }
      }
    } else {
      OverlappingRetriesClash();
    }
  }
}
