/**
 The worker launcher: launch contexts pass from in flight to current to retired while
 the launch thread, the observer thread, admission, its timeout, cancellation and
 re-entrant callbacks race.  The functions are the effects of the launcher's own
 calls; the class updates the same fields in place.
 */
module Launcher {
  import opened Common

  /** What completeLaunch meets on its way to the attach callback. */
  datatype Progress = AuthorityMismatch | NoObserverHandle | NoObserverThread | NotPublished | AttachCalled

  datatype Admission = Accepted | Rejected | IgnoredStale

  datatype LaunchOutcome = Malformed | PathInvalid | TempUnavailable | NotStarted | Launched

  /**
   Whoever will act next on a context: threads, queued events, callbacks in progress,
   and closures held by others.  The first seven hold a reference to the ready payload.
   */
  datatype Agent =
    | LaunchThread(context: nat)
    | AdmissionEvent(context: nat)
    | RequestingAdmission(context: nat)
    | AdmissionClosure(context: nat)
    | CompletionEvent(context: nat, admission: Admission)
    | Attaching(context: nat)
    | Announcing(context: nat)
    | Observer(context: nat)
    | Cancelling(current: Option<nat>, inflight: seq<nat>)
    | Retiring(context: nat)
    | RetirementEvent(context: nat, ok: bool)
    | NotifyingExit(context: nat, serial: nat)
    | PublishingRetirement(context: nat)
    | Done

  /**
   A launch context with the flags of its payload; a context is named by its serial.
   `submitted` counts its submissions to the retirement manager, and `handled` says
   that the launcher has handled one of its retirement results.
   */
  datatype Context = Context(
    request: nat,
    submitted: nat,
    canceled: bool,
    attached: bool,
    observationFailed: bool,
    fatalObserved: bool,
    consumed: bool,
    resolved: bool,
    timer: bool,
    gateReleased: bool,
    handled: bool)

  datatype Core = Core(
    accepting: bool,
    serial: nat,
    pending: Option<nat>,
    current: Option<nat>,
    inflight: seq<nat>,
    fatal: set<nat>,
    contexts: map<nat, Context>,
    spawned: seq<Agent>)

  const InitialCore := Core(true, 0, None, None, [], {}, map[], [])

  function NewContext(request: nat): Context {
    Context(request, 0, false, false, false, false, false, false, false, false, false)
  }

  function Spawn(k: Core, a: Agent): Core {
    k.(spawned := k.spawned + [a])
  }

  function Put(k: Core, c: nat, x: Context): Core {
    k.(contexts := k.contexts[c := x])
  }

  function Without(s: seq<nat>, c: nat): seq<nat> {
    if s == [] then [] else (if s[0] == c then [] else [s[0]]) + Without(s[1..], c)
  }

  /** Only the first submission goes to the manager; `manager` says whether it still takes any. */
  function Submit(k: Core, c: nat, manager: bool): Core
    requires c in k.contexts
  {
    if k.contexts[c].submitted > 0 then k
    else Spawn(Put(k, c, k.contexts[c].(submitted := k.contexts[c].submitted + 1)),
               if manager then Retiring(c) else RetirementEvent(c, false))
  }

  function SubmitAll(k: Core, cs: seq<nat>, manager: bool): (k': Core)
    requires forall c <- cs :: c in k.contexts
    ensures k'.contexts.Keys == k.contexts.Keys
    decreases cs
  {
    if cs == [] then k else SubmitAll(Submit(k, cs[0], manager), cs[1..], manager)
  }

  function RequestLaunch(k: Core, request: nat, outcome: LaunchOutcome, manager: bool): (Core, bool) {
    if !k.accepting || outcome == Malformed || outcome == PathInvalid then (k, false)
    else if k.current.Some? || k.inflight != [] then (k.(pending := Some(request)), true)
    else
      var n := k.serial + 1;
      var k1 := k.(serial := n);
      if outcome == TempUnavailable then (k1, false)
      else
        var k2 := Put(k1, n, NewContext(request)).(inflight := k1.inflight + [n]);
        if outcome == NotStarted then (Submit(k2, n, manager), false) else (Spawn(k2, LaunchThread(n)), true)
  }

  /** The ready payload arrives; the flag says whether the admission service is asked. */
  function RequestAdmission(k: Core, c: nat, manager: bool): (Core, bool)
    requires c in k.contexts
  {
    if !k.accepting || c != k.serial || k.contexts[c].canceled then (Submit(k, c, manager), false)
    else (Spawn(Put(k, c, k.contexts[c].(timer := true)), AdmissionClosure(c)), true)
  }

  /** The flag says whether the attach callback is called. */
  function CompleteLaunch(k: Core, c: nat, admission: Admission, progress: Progress, manager: bool): (Core, bool)
    requires c in k.contexts
  {
    if k.contexts[c].resolved then (k, false)
    else
      var resolved := Put(k, c, k.contexts[c].(resolved := true, timer := false));
      if k.contexts[c].canceled || admission != Accepted || !k.accepting || c != k.serial || progress == AuthorityMismatch
      then (Submit(resolved, c, manager), false)
      else if progress == NoObserverHandle || progress == NoObserverThread then
        (Submit(Put(resolved, c, resolved.contexts[c].(observationFailed := true)), c, manager), false)
      else
        var observed := Spawn(resolved, Observer(c));
        if progress == NotPublished then
          (Submit(Put(observed, c, observed.contexts[c].(gateReleased := true)), c, manager), false)
        else (observed, true)
  }

  /** From the return of the attach callback; the flag says whether the context became current. */
  function AttachReturned(k: Core, c: nat, attached: bool, manager: bool): (Core, bool)
    requires c in k.contexts
  {
    if k.contexts[c].canceled || !attached then
      (Submit(Put(k, c, k.contexts[c].(gateReleased := true)), c, manager), false)
    else
      (Put(k, c, k.contexts[c].(consumed := true, attached := true)).(inflight := Without(k.inflight, c), current := Some(c)),
       true)
  }

  function CancelContext(k: Core, c: nat, manager: bool): Core
    requires c in k.contexts
  {
    Submit(Put(k, c, k.contexts[c].(canceled := true)), c, manager)
  }

  /** The contexts of `cs` that were launched for `request` are cancelled. */
  function CancelMatching(k: Core, cs: seq<nat>, request: nat, manager: bool): (k': Core)
    requires forall c <- cs :: c in k.contexts
    ensures k'.contexts.Keys == k.contexts.Keys
    decreases cs
  {
    if cs == [] then k
    else CancelMatching(if k.contexts[cs[0]].request == request then CancelContext(k, cs[0], manager) else k,
                        cs[1..], request, manager)
  }

  function CancelCurrent(k: Core, request: nat): Core
    requires k.current.Some? ==> k.current.value in k.contexts
  {
    var k1 := if k.pending == Some(request) then k.(pending := None) else k;
    if k1.current.Some? && k1.contexts[k1.current.value].request == request then
      Put(k1, k1.current.value, k1.contexts[k1.current.value].(canceled := true))
    else k1
  }

  function CancelLaunch(k: Core, request: nat, manager: bool): Core
    requires k.current.Some? ==> k.current.value in k.contexts
    requires forall c <- k.inflight :: c in k.contexts
  {
    CancelMatching(CancelCurrent(k, request), k.inflight, request, manager)
  }

  /** cancel up to its stop callback, which may re-enter. */
  function Cancel(k: Core): Core {
    Spawn(k.(accepting := false, serial := k.serial + 1, pending := None), Cancelling(k.current, k.inflight))
  }

  /** cancel from the return of the stop callback. */
  function CancelReturned(k: Core, current: Option<nat>, inflight: seq<nat>, manager: bool): Core
    requires current.Some? ==> current.value in k.contexts
    requires forall c <- inflight :: c in k.contexts
  {
    SubmitAll(if current.Some? then Submit(k, current.value, manager) else k, inflight, manager)
  }

  /** handleRetirement up to the observers it notifies. */
  function HandleRetirement(k: Core, c: nat, ok: bool): Core
    requires c in k.contexts
  {
    var x := k.contexts[c].(handled := true);
    var k1 := k.(inflight := Without(k.inflight, c), current := if k.current == Some(c) then None else k.current);
    if !ok then
      Put(k1, c, x.(fatalObserved := true)).(accepting := false, pending := None, fatal := k.fatal + {c})
    else
      var k2 := Put(k1, c, x).(fatal := k.fatal - {c});
      if x.attached && !x.fatalObserved && x.observationFailed then k2.(accepting := false, pending := None)
      else if x.attached && !x.fatalObserved then Spawn(k2, NotifyingExit(c, k.serial))
      else Spawn(k2, PublishingRetirement(c))
  }

  function ExitNotified(k: Core, c: nat, serial: nat): Core {
    if k.serial != serial then k else Spawn(k, PublishingRetirement(c))
  }

  /** The end of handleRetirement: a launch that had to wait is started. */
  function RetirementPublished(k: Core, outcome: LaunchOutcome, manager: bool): Core {
    if k.accepting && k.inflight == [] && k.current.None? && k.pending.Some? then
      RequestLaunch(k.(pending := None), k.pending.value, outcome, manager).0
    else k
  }

  class InstalledPackageWorkerLauncher {
    var accepting: bool
    var serial: nat
    var pending: Option<nat>
    var current: Option<nat>
    var inflight: seq<nat>
    var fatal: set<nat>
    var contexts: map<nat, Context>
    var spawned: seq<Agent>

    function View(): Core reads this { Core(accepting, serial, pending, current, inflight, fatal, contexts, spawned) }

    constructor ()
      ensures View() == InitialCore
    {
      accepting, serial, pending, current, inflight := true, 0, None, None, [];
      fatal, contexts, spawned := {}, map[], [];
    }

    method SubmitRetirement(c: nat, manager: bool)
      requires c in contexts
      modifies this`contexts, this`spawned
      ensures View() == Submit(old(View()), c, manager)
    {
      if contexts[c].submitted > 0 { return; }
      contexts := contexts[c := contexts[c].(submitted := contexts[c].submitted + 1)];
      spawned := spawned + [if manager then Retiring(c) else RetirementEvent(c, false)];
    }

    method Launch(request: nat, outcome: LaunchOutcome, manager: bool) returns (ok: bool)
      modifies this
      ensures (View(), ok) == RequestLaunch(old(View()), request, outcome, manager)
    {
      if !accepting || outcome == Malformed || outcome == PathInvalid { return false; }
      if current.Some? || inflight != [] {
        pending := Some(request);
        return true;
      }
      serial := serial + 1;
      if outcome == TempUnavailable { return false; }
      contexts := contexts[serial := NewContext(request)];
      inflight := inflight + [serial];
      if outcome == NotStarted {
        SubmitRetirement(serial, manager);
        return false;
      }
      spawned := spawned + [LaunchThread(serial)];
      return true;
    }

    method PayloadArrives(c: nat, manager: bool) returns (asked: bool)
      requires c in contexts
      modifies this
      ensures (View(), asked) == RequestAdmission(old(View()), c, manager)
    {
      if !accepting || c != serial || contexts[c].canceled {
        SubmitRetirement(c, manager);
        return false;
      }
      contexts := contexts[c := contexts[c].(timer := true)];
      spawned := spawned + [AdmissionClosure(c)];
      return true;
    }

    method Complete(c: nat, admission: Admission, progress: Progress, manager: bool) returns (attaching: bool)
      requires c in contexts
      modifies this
      ensures (View(), attaching) == CompleteLaunch(old(View()), c, admission, progress, manager)
    {
      if contexts[c].resolved { return false; }
      contexts := contexts[c := contexts[c].(resolved := true, timer := false)];
      if contexts[c].canceled || admission != Accepted || !accepting || c != serial || progress == AuthorityMismatch {
        SubmitRetirement(c, manager);
        return false;
      }
      if progress == NoObserverHandle || progress == NoObserverThread {
        contexts := contexts[c := contexts[c].(observationFailed := true)];
        SubmitRetirement(c, manager);
        return false;
      }
      spawned := spawned + [Observer(c)];
      if progress == NotPublished {
        contexts := contexts[c := contexts[c].(gateReleased := true)];
        SubmitRetirement(c, manager);
        return false;
      }
      return true;
    }

    method FinishAttach(c: nat, attached: bool, manager: bool) returns (nowCurrent: bool)
      requires c in contexts
      modifies this
      ensures (View(), nowCurrent) == AttachReturned(old(View()), c, attached, manager)
    {
      if contexts[c].canceled || !attached {
        contexts := contexts[c := contexts[c].(gateReleased := true)];
        SubmitRetirement(c, manager);
        return false;
      }
      contexts := contexts[c := contexts[c].(consumed := true, attached := true)];
      inflight := Without(inflight, c);
      current := Some(c);
      return true;
    }

    method CancelInflight(c: nat, manager: bool)
      requires c in contexts
      modifies this`contexts, this`spawned
      ensures View() == CancelContext(old(View()), c, manager)
    {
      contexts := contexts[c := contexts[c].(canceled := true)];
      SubmitRetirement(c, manager);
    }

    method CancelPendingAndCurrent(request: nat)
      requires current.Some? ==> current.value in contexts
      modifies this`pending, this`contexts
      ensures View() == CancelCurrent(old(View()), request) && contexts.Keys == old(contexts.Keys)
    {
      if pending == Some(request) { pending := None; }
      if current.Some? && contexts[current.value].request == request {
        contexts := contexts[current.value := contexts[current.value].(canceled := true)];
      }
    }

    method CancelRequest(request: nat, manager: bool)
      requires current.Some? ==> current.value in contexts
      requires forall c <- inflight :: c in contexts
      modifies this
      ensures View() == CancelLaunch(old(View()), request, manager)
    {
      hide CancelContext, CancelCurrent;
      CancelPendingAndCurrent(request);
      var i := 0;
      while i < |inflight|
        invariant i <= |inflight| && inflight == old(inflight)
        invariant contexts.Keys == old(contexts.Keys)
        invariant CancelMatching(View(), inflight[i..], request, manager) == CancelLaunch(old(View()), request, manager)
      {
        if contexts[inflight[i]].request == request {
          CancelInflight(inflight[i], manager);
        }
        i := i + 1;
      }
    }

    method CancelAll()
      modifies this
      ensures View() == Cancel(old(View()))
    {
      accepting := false;
      serial := serial + 1;
      pending := None;
      spawned := spawned + [Cancelling(current, inflight)];
    }

    method FinishCancel(wasCurrent: Option<nat>, wereInflight: seq<nat>, manager: bool)
      requires wasCurrent.Some? ==> wasCurrent.value in contexts
      requires forall c <- wereInflight :: c in contexts
      modifies this
      ensures View() == CancelReturned(old(View()), wasCurrent, wereInflight, manager)
    {
      if wasCurrent.Some? { SubmitRetirement(wasCurrent.value, manager); }
      var i := 0;
      while i < |wereInflight|
        invariant i <= |wereInflight| && contexts.Keys == old(contexts.Keys)
        invariant SubmitAll(View(), wereInflight[i..], manager)
               == CancelReturned(old(View()), wasCurrent, wereInflight, manager)
      {
        SubmitRetirement(wereInflight[i], manager);
        i := i + 1;
      }
    }

    method RetirementArrives(c: nat, ok: bool)
      requires c in contexts
      modifies this
      ensures View() == HandleRetirement(old(View()), c, ok)
    {
      inflight := Without(inflight, c);
      contexts := contexts[c := contexts[c].(handled := true)];
      if !ok {
        contexts := contexts[c := contexts[c].(fatalObserved := true)];
        accepting := false;
        pending := None;
        fatal := fatal + {c};
        if current == Some(c) { current := None; }
        return;
      }
      fatal := fatal - {c};
      if current == Some(c) { current := None; }
      if contexts[c].attached && !contexts[c].fatalObserved {
        if contexts[c].observationFailed {
          accepting := false;
          pending := None;
          return;
        }
        spawned := spawned + [NotifyingExit(c, serial)];
        return;
      }
      spawned := spawned + [PublishingRetirement(c)];
    }

    method StartPending(outcome: LaunchOutcome, manager: bool)
      modifies this
      ensures View() == RetirementPublished(old(View()), outcome, manager)
    {
      if accepting && inflight == [] && current.None? && pending.Some? {
        var request := pending.value;
        pending := None;
        var _ := Launch(request, outcome, manager);
      }
    }
  }
}
