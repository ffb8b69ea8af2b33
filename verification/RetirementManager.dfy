/**
 The retirement manager: every record is retired by a detached cleanup thread that
 retries under a back-off.  The functions are its critical sections, one for each
 time the mutex is taken; the class holds the guarded fields.
 */
module RetirementManager {
  import opened Common

  const RetryDelays: seq<nat> := [25, 50, 100, 200, 400, 800]

  datatype RecordState = Pending | Working | Fatal

  /** The guarded fields.  `states` keeps the state of a record that has left the table: callers may still hold it. */
  datatype Table = Table(states: map<nat, RecordState>, live: set<nat>, nextTicket: nat, activeThreads: int, shuttingDown: bool)

  const EmptyTable := Table(map[], {}, 1, 0, false)

  predicate Idle(m: Table) {
    m.live == {} && m.activeThreads == 0
  }

  function Accept(m: Table): (Table, nat) {
    if m.shuttingDown then (m, 0)
    else
      var t := m.nextTicket;
      (m.(states := m.states[t := Pending], live := m.live + {t}, nextTicket := t + 1), t)
  }

  function Claim(m: Table, t: nat): (Table, bool) {
    if t in m.states && m.states[t] == Working then (m, false)
    else (m.(states := m.states[t := Working], activeThreads := m.activeThreads + 1), true)
  }

  function ThreadUnavailable(m: Table, t: nat): Table {
    m.(states := m.states[t := Fatal], activeThreads := m.activeThreads - 1)
  }

  function Postpone(m: Table, t: nat): Table {
    m.(states := m.states[t := Pending])
  }

  function Resume(m: Table, t: nat): Table {
    m.(states := m.states[t := Working])
  }

  /** A record that succeeds leaves the table as it is; its state is not changed. */
  function Settle(m: Table, t: nat, ok: bool): Table {
    if ok then m.(live := m.live - {t}) else m.(states := m.states[t := Fatal])
  }

  function Leave(m: Table): Table {
    m.(activeThreads := m.activeThreads - 1)
  }

  function FatalTickets(m: Table): set<nat> {
    set t <- m.live | t in m.states && m.states[t] == Fatal
  }

  /** `order` lists exactly the fatal records, each once, in whatever order the table yields them. */
  predicate Lists(m: Table, order: seq<nat>) {
    && (forall i, j :: 0 <= i < j < |order| ==> order[i] != order[j])
    && (forall t <- order :: t in FatalTickets(m))
    && (forall t <- FatalTickets(m) :: t in order)
  }

  class WorkerRetirementManager {
    var states: map<nat, RecordState>
    var live: set<nat>
    var nextTicket: nat
    var activeThreads: int
    var shuttingDown: bool

    function View(): Table reads this { Table(states, live, nextTicket, activeThreads, shuttingDown) }

    constructor ()
      ensures View() == EmptyTable
    {
      states, live, nextTicket, activeThreads, shuttingDown := map[], {}, 1, 0, false;
    }

    method AcceptRecord() returns (ticket: nat)
      modifies this
      ensures (View(), ticket) == Accept(old(View()))
    {
      if shuttingDown { return 0; }
      ticket := nextTicket;
      nextTicket := nextTicket + 1;
      states := states[ticket := Pending];
      live := live + {ticket};
    }

    method ClaimRecord(t: nat) returns (claimed: bool)
      modifies this
      ensures (View(), claimed) == Claim(old(View()), t)
    {
      if t in states && states[t] == Working { return false; }
      states := states[t := Working];
      activeThreads := activeThreads + 1;
      return true;
    }

    method StartFailed(t: nat)
      modifies this
      ensures View() == ThreadUnavailable(old(View()), t)
    {
      activeThreads := activeThreads - 1;
      states := states[t := Fatal];
    }

    method SettleRecord(t: nat, ok: bool)
      modifies this
      ensures View() == Settle(old(View()), t, ok)
    {
      if ok { live := live - {t}; } else { states := states[t := Fatal]; }
    }

    /** The loop of a cleanup thread; `outcomes` is what the attempts it makes will return. */
    method RunAttempts(t: nat, outcomes: seq<bool>) returns (ok: bool, attempts: nat, slept: nat)
      requires |outcomes| > |RetryDelays|
      modifies this
      ensures 1 <= attempts <= |RetryDelays| + 1
      ensures ok == outcomes[attempts - 1] && forall i :: 0 <= i < attempts - 1 ==> !outcomes[i]
      ensures !ok ==> attempts == |RetryDelays| + 1
      ensures slept == BackOff(attempts - 1)
      ensures View() == Settle(if attempts == 1 then old(View()) else Resume(old(View()), t), t, ok)
    {
      attempts, slept := 0, 0;
      while true
        invariant 0 <= attempts <= |RetryDelays|
        invariant slept == BackOff(attempts)
        invariant forall i :: 0 <= i < attempts ==> !outcomes[i]
        invariant View() == if attempts == 0 then old(View()) else Resume(old(View()), t)
        decreases |RetryDelays| - attempts
      {
        ok := outcomes[attempts];
        if ok || attempts >= |RetryDelays| { break; }
        states := states[t := Pending];
        BackOffStep(attempts);
        slept := slept + RetryDelays[attempts];
        states := states[t := Working];
        attempts := attempts + 1;
      }
      attempts := attempts + 1;
      SettleRecord(t, ok);
    }

    /** The fatal records, for retryFatal. */
    method CollectFatal() returns (order: seq<nat>)
      ensures Lists(View(), order)
    {
      order := [];
      var rest := live;
      while rest != {}
        invariant rest <= live
        invariant forall i, j :: 0 <= i < j < |order| ==> order[i] != order[j]
        invariant forall u <- order :: u !in rest
        invariant forall t :: t in order <==> t in FatalTickets(View()) - rest
        decreases rest
      {
        var t :| t in rest;
        rest := rest - {t};
        if t in states && states[t] == Fatal { order := order + [t]; }
      }
    }

    /** What flush waits for, seen under the lock. */
    method CheckIdle() returns (idle: bool)
      ensures idle <==> Idle(View())
    {
      idle := live == {} && activeThreads == 0;
    }
  }

  /** The delays slept before attempt number `k + 1`: 25 times two to the k, minus 25. */
  function BackOff(k: nat): nat {
    25 * Power2(k) - 25
  }

  function Power2(k: nat): (p: nat)
    ensures p >= 1
  {
    if k == 0 then 1 else 2 * Power2(k - 1)
  }

  lemma BackOffStep(k: nat)
    requires k < |RetryDelays|
    ensures BackOff(k + 1) == BackOff(k) + RetryDelays[k]
  {
    assert Power2(k + 1) == 2 * Power2(k);
    PowersOfTwo();
  }

  lemma PowersOfTwo()
    ensures Power2(0) == 1 && Power2(1) == 2 && Power2(2) == 4 && Power2(3) == 8 && Power2(4) == 16 && Power2(5) == 32
    ensures Power2(6) == 64
  {
    assert Power2(3) == 2 * Power2(2) == 4 * Power2(1);
    assert Power2(6) == 2 * Power2(5) == 4 * Power2(4) == 8 * Power2(3);
  }
}
