/**
 The cleanup a launch context makes when it is retired: ordered, repeated after a
 failure, and giving up a resource only once it is closed.
 */
module LaunchCleanup {

  /** What a context owns: a process or its fallback, cleanup duties of a failed launch, the package guard, grants, a temp tree. */
  datatype Owned = Owned(worker: bool, failedLaunch: bool, guard: bool, prepared: bool, temp: bool, session: bool, observer: bool)

  const Nothing := Owned(false, false, false, false, false, false, false)

  /** How each close would go, and whether the launch thread is still running when its two seconds are over. */
  datatype Outcomes =
    Outcomes(launching: bool, execution: bool, failedLaunch: bool, guard: bool, prepared: bool, grants: bool, temp: bool)

  /** A call that closes or deletes something, with its result. */
  datatype Event =
    | ExecutionClose(ok: bool)
    | FailedLaunchClose(ok: bool)
    | GuardClose(ok: bool)
    | PreparedClose(ok: bool)
    | GrantsClose(ok: bool)
    | TempDelete(ok: bool)

  /** The package may be unlocked once no code of the worker can run. */
  predicate PackageSafe(r: Owned, o: Outcomes) {
    !r.worker || o.execution
  }

  function When(c: bool, e: Event): (s: seq<Event>)
    ensures AllOk(s) <==> !c || e.ok
  {
    assert [e][0] == e;
    if c then [e] else []
  }

  function Closes(r: Owned, o: Outcomes): seq<Event> {
    When(r.worker, ExecutionClose(o.execution))
    + When(r.failedLaunch, FailedLaunchClose(o.failedLaunch))
    + When(PackageSafe(r, o) && r.guard, GuardClose(o.guard))
    + When(PackageSafe(r, o) && r.prepared, PreparedClose(o.prepared))
    + When(r.worker && o.execution, GrantsClose(o.grants))
  }

  predicate AllOk(events: seq<Event>) {
    forall i :: 0 <= i < |events| ==> events[i].ok
  }

  lemma AllOkAppend(s: seq<Event>, t: seq<Event>)
    ensures AllOk(s + t) <==> AllOk(s) && AllOk(t)
  {
    if AllOk(s + t) {
      assert forall i :: 0 <= i < |s| ==> s[i] == (s + t)[i];
      assert forall i :: 0 <= i < |t| ==> t[i] == (s + t)[|s| + i];
    }
  }

  function Attempt(r: Owned, o: Outcomes): (Owned, seq<Event>, bool) {
    if o.launching then (r, [], false)
    else
      var closes := Closes(r, o);
      var events := closes + When(AllOk(closes) && r.temp, TempDelete(o.temp));
      var ok := AllOk(events);
      var kept := Kept(r, o);
      (if ok then kept.(worker := false, temp := false) else kept, events, ok)
  }

  /** What is left once the closes have been made. */
  function Kept(r: Owned, o: Outcomes): Owned {
    r.(session := false, observer := false,
       failedLaunch := r.failedLaunch && !o.failedLaunch,
       guard := r.guard && !(PackageSafe(r, o) && o.guard),
       prepared := r.prepared && !(PackageSafe(r, o) && o.prepared))
  }

  /** What a run of attempts does, one list of calls for each attempt. */
  function History(r: Owned, outcomes: seq<Outcomes>): seq<seq<Event>>
    decreases outcomes
  {
    if outcomes == [] then [] else [Attempt(r, outcomes[0]).1] + History(Attempt(r, outcomes[0]).0, outcomes[1..])
  }

  function After(r: Owned, outcomes: seq<Outcomes>): Owned
    decreases outcomes
  {
    if outcomes == [] then r else After(Attempt(r, outcomes[0]).0, outcomes[1..])
  }

  lemma ClosesAllOk(r: Owned, o: Outcomes)
    ensures AllOk(Closes(r, o)) <==>
              && (r.worker ==> o.execution && o.grants) && (r.failedLaunch ==> o.failedLaunch)
              && (r.guard && PackageSafe(r, o) ==> o.guard) && (r.prepared && PackageSafe(r, o) ==> o.prepared)
  {
    hide AllOk;
    var a := Joined(When(r.worker, ExecutionClose(o.execution)), When(r.failedLaunch, FailedLaunchClose(o.failedLaunch)));
    var b := Joined(a, When(PackageSafe(r, o) && r.guard, GuardClose(o.guard)));
    var c := Joined(b, When(PackageSafe(r, o) && r.prepared, PreparedClose(o.prepared)));
    var d := Joined(c, When(r.worker && o.execution, GrantsClose(o.grants)));
    assert d == Closes(r, o);
  }

  ghost function Joined(s: seq<Event>, t: seq<Event>): (r: seq<Event>)
    ensures r == s + t && (AllOk(r) <==> AllOk(s) && AllOk(t))
  {
    AllOkAppend(s, t);
    s + t
  }

  class LaunchRetirementContext {
    var owned: Owned
    var log: seq<Event>

    constructor (owned: Owned)
      ensures this.owned == owned && log == []
    {
      this.owned := owned;
      log := [];
    }

    /** One close, if it is due, with the outcome `e` records. */
    method Try(due: bool, e: Event, calls: seq<Event>, error: bool) returns (calls': seq<Event>, error': bool)
      ensures calls' == calls + When(due, e)
      ensures error' <==> error || (due && !e.ok)
    {
      calls', error' := calls, error;
      if due { calls', error' := calls + [e], error || !e.ok; }
    }

    /** Whatever fails, the closes that are safe are all tried. */
    method CloseResources(o: Outcomes) returns (error: bool)
      modifies this
      ensures owned == Kept(old(owned), o)
      ensures log == old(log) + Closes(old(owned), o)
      ensures error <==> !AllOk(Closes(old(owned), o))
    {
      hide AllOk, When;
      var r, calls := owned, [];
      owned := owned.(session := false, observer := false);
      calls, error := Try(r.worker, ExecutionClose(o.execution), calls, false);
      assert calls == When(r.worker, ExecutionClose(o.execution));
      var packageSafe := !r.worker || o.execution;
      calls, error := Try(r.failedLaunch, FailedLaunchClose(o.failedLaunch), calls, error);
      if o.failedLaunch { owned := owned.(failedLaunch := false); }
      calls, error := Try(packageSafe && r.guard, GuardClose(o.guard), calls, error);
      if packageSafe && o.guard { owned := owned.(guard := false); }
      calls, error := Try(packageSafe && r.prepared, PreparedClose(o.prepared), calls, error);
      if packageSafe && o.prepared { owned := owned.(prepared := false); }
      calls, error := Try(r.worker && o.execution, GrantsClose(o.grants), calls, error);
      log := log + calls;
      ClosesAllOk(r, o);
    }

    method AttemptRetirement(o: Outcomes) returns (succeeded: bool)
      modifies this
      ensures (owned, log, succeeded) == (Attempt(old(owned), o).0, old(log) + Attempt(old(owned), o).1, Attempt(old(owned), o).2)
    {
      hide AllOk, Closes;
      assert log + [] == log;
      if o.launching { return false; }
      ghost var closes := Closes(owned, o);
      ghost var events := Joined(closes, When(AllOk(closes) && owned.temp, TempDelete(o.temp)));
      var error := CloseResources(o);
      if !error && owned.temp {
        log := log + [TempDelete(o.temp)];
        if !o.temp { error := true; }
      }
      assert log == old(log) + events && (error <==> !AllOk(events));
      if error { return false; }
      owned := owned.(worker := false, temp := false);
      return true;
    }
  }

  // ---- One attempt -------------------------------------------------------------------------

  /** The package guard, prepared grants and the worker's own are closed only after the worker's execution, if there is a worker. */
  lemma PackageClosesAfterExecution(r: Owned, o: Outcomes, i: nat)
    requires i < |Attempt(r, o).1|
    requires var e := Attempt(r, o).1[i]; e.GuardClose? || e.PreparedClose? || e.GrantsClose?
    ensures r.worker ==> i > 0 && Attempt(r, o).1[0] == ExecutionClose(true)
  {}

  /** The temp tree is deleted last, and only if every other close of the attempt succeeded. */
  lemma TempGoesLast(r: Owned, o: Outcomes, i: nat)
    requires i < |Attempt(r, o).1| && Attempt(r, o).1[i].TempDelete?
    ensures i == |Attempt(r, o).1| - 1 && AllOk(Attempt(r, o).1[..i])
  {
    ClosesDeleteNoTemp(r, o);
    hide AllOk, Closes;
    var closes := Closes(r, o);
    assert forall k :: 0 <= k < |closes| ==> Attempt(r, o).1[k] == closes[k];
    assert Attempt(r, o).1[..i] == closes;
  }

  lemma ClosesDeleteNoTemp(r: Owned, o: Outcomes)
    ensures forall k :: 0 <= k < |Closes(r, o)| ==> !Closes(r, o)[k].TempDelete?
  {
    hide AllOk;
    var closes := Closes(r, o);
    forall k | 0 <= k < |closes| ensures !closes[k].TempDelete? { assert closes[k] in closes; }
  }

  lemma ClosesMade(r: Owned, o: Outcomes, e: Event)
    ensures e in Closes(r, o) <==>
              match e
              case ExecutionClose(ok) => r.worker && ok == o.execution
              case FailedLaunchClose(ok) => r.failedLaunch && ok == o.failedLaunch
              case GuardClose(ok) => PackageSafe(r, o) && r.guard && ok == o.guard
              case PreparedClose(ok) => PackageSafe(r, o) && r.prepared && ok == o.prepared
              case GrantsClose(ok) => r.worker && o.execution && ok == o.grants
              case TempDelete(_) => false
  {
    hide AllOk;
  }

  /** Which calls an attempt makes, with which result. */
  lemma CallsMade(r: Owned, o: Outcomes, e: Event)
    ensures e in Attempt(r, o).1 <==>
              !o.launching
              && match e
                 case ExecutionClose(ok) => r.worker && ok == o.execution
                 case FailedLaunchClose(ok) => r.failedLaunch && ok == o.failedLaunch
                 case GuardClose(ok) => PackageSafe(r, o) && r.guard && ok == o.guard
                 case PreparedClose(ok) => PackageSafe(r, o) && r.prepared && ok == o.prepared
                 case GrantsClose(ok) => r.worker && o.execution && ok == o.grants
                 case TempDelete(ok) => AllOk(Closes(r, o)) && r.temp && ok == o.temp
  {
    ClosesMade(r, o, e);
    hide AllOk, Closes;
  }

  /** What is owned before and after, resource by resource: nothing is given up unless its own close succeeded. */
  lemma OwnershipFollowsTheCalls(r: Owned, o: Outcomes)
    ensures var (r', events, ok) := Attempt(r, o);
      && (r'.failedLaunch <==> r.failedLaunch && FailedLaunchClose(true) !in events)
      && (r'.guard <==> r.guard && GuardClose(true) !in events)
      && (r'.prepared <==> r.prepared && PreparedClose(true) !in events)
      && (r'.worker <==> r.worker && !ok)
      && (r'.temp <==> r.temp && !ok)
      && (r.temp && ok ==> TempDelete(true) in events)
      && (r.worker && ok ==> ExecutionClose(true) in events && GrantsClose(true) in events)
  {
    var (r', events, ok) := Attempt(r, o);
    CallsMade(r, o, FailedLaunchClose(true));
    CallsMade(r, o, GuardClose(true));
    CallsMade(r, o, PreparedClose(true));
    if ok {
      var closes := Closes(r, o);
      AllOkAppend(closes, When(AllOk(closes) && r.temp, TempDelete(o.temp)));
      CallsMade(r, o, ExecutionClose(o.execution));
      CallsMade(r, o, GrantsClose(o.grants));
      CallsMade(r, o, TempDelete(o.temp));
    }
  }

  /** An attempt succeeds exactly when the launch thread is over and every call it makes succeeds; then nothing is left. */
  lemma SuccessMeansNothingIsLeft(r: Owned, o: Outcomes)
    ensures Attempt(r, o).2 <==> !o.launching && AllOk(Attempt(r, o).1)
    ensures Attempt(r, o).2 ==> Attempt(r, o).0 == Nothing
    ensures Attempt(Nothing, o) == (Nothing, [], !o.launching)
  {
    if Attempt(r, o).2 {
      var events := Attempt(r, o).1;
      SucceededCalls(r, o);
    }
  }

  lemma SucceededCalls(r: Owned, o: Outcomes)
    requires Attempt(r, o).2
    ensures (r.worker ==> o.execution) && (r.failedLaunch ==> o.failedLaunch) && (r.guard ==> o.guard) && (r.prepared ==> o.prepared)
  {
    CallsMade(r, o, ExecutionClose(false));
    CallsMade(r, o, FailedLaunchClose(false));
    CallsMade(r, o, GuardClose(false));
    CallsMade(r, o, PreparedClose(false));
  }

  // ---- Any number of attempts -----------------------------------------------------------------

  /** What is not owned is not closed. */
  lemma {:induction false} OnlyOwnedIsClosed(r: Owned, outcomes: seq<Outcomes>, b: nat, e: Event)
    requires b < |History(r, outcomes)| && e in History(r, outcomes)[b]
    ensures (e.GuardClose? ==> r.guard) && (e.PreparedClose? ==> r.prepared) && (e.FailedLaunchClose? ==> r.failedLaunch)
    ensures (e.TempDelete? ==> r.temp) && (e.ExecutionClose? || e.GrantsClose? ==> r.worker)
    decreases outcomes
  {
    if b == 0 {
      CallsMade(r, outcomes[0], e);
    } else {
      OwnershipFollowsTheCalls(r, outcomes[0]);
      OnlyOwnedIsClosed(Attempt(r, outcomes[0]).0, outcomes[1..], b - 1, e);
    }
  }

  /** A close that succeeded is final: no later attempt makes that call again. */
  predicate Same(e: Event, f: Event) {
    match e
    case FailedLaunchClose(_) => f.FailedLaunchClose?
    case GuardClose(_) => f.GuardClose?
    case PreparedClose(_) => f.PreparedClose?
    case TempDelete(_) => f.TempDelete?
    case _ => false
  }

  lemma {:induction false} ClosedOnceIsClosedForGood(r: Owned, outcomes: seq<Outcomes>, a: nat, b: nat, e: Event, f: Event)
    requires a < b < |History(r, outcomes)| && e in History(r, outcomes)[a] && e.ok && f in History(r, outcomes)[b]
    ensures !Same(e, f)
    decreases outcomes
  {
    var next := Attempt(r, outcomes[0]).0;
    if a == 0 {
      OwnershipFollowsTheCalls(r, outcomes[0]);
      OnlyOwnedIsClosed(next, outcomes[1..], b - 1, f);
      if e.TempDelete? { DeletedMeansDone(r, outcomes[0]); }
    } else {
      ClosedOnceIsClosedForGood(next, outcomes[1..], a - 1, b - 1, e, f);
    }
  }

  lemma DeletedMeansDone(r: Owned, o: Outcomes)
    requires TempDelete(true) in Attempt(r, o).1
    ensures Attempt(r, o).2
  {
    CallsMade(r, o, TempDelete(true));
    AllOkAppend(Closes(r, o), [TempDelete(true)]);
  }

  /**
   Whatever failed, what is still owned after any attempts is exactly what was owned
   and never closed.
   */
  lemma {:induction false} NothingIsLostOrForgotten(r: Owned, outcomes: seq<Outcomes>)
    ensures var (r', h) := (After(r, outcomes), History(r, outcomes));
      && (r'.guard <==> r.guard && forall b :: 0 <= b < |h| ==> GuardClose(true) !in h[b])
      && (r'.prepared <==> r.prepared && forall b :: 0 <= b < |h| ==> PreparedClose(true) !in h[b])
      && (r'.failedLaunch <==> r.failedLaunch && forall b :: 0 <= b < |h| ==> FailedLaunchClose(true) !in h[b])
    decreases outcomes
  {
    hide Attempt;
    if outcomes != [] {
      var next, h := Attempt(r, outcomes[0]).0, History(r, outcomes);
      OwnershipFollowsTheCalls(r, outcomes[0]);
      NothingIsLostOrForgotten(next, outcomes[1..]);
      assert h[0] == Attempt(r, outcomes[0]).1;
      var rest := History(next, outcomes[1..]);
      assert forall b :: 1 <= b < |h| ==> h[b] == rest[b - 1];
      assert forall b :: 0 <= b < |rest| ==> rest[b] == h[b + 1];
    }
  }

  /** How attempt number `b` of a run ends. */
  function Succeeds(r: Owned, outcomes: seq<Outcomes>, b: nat): bool
    requires b < |outcomes|
    decreases outcomes
  {
    if b == 0 then Attempt(r, outcomes[0]).2 else Succeeds(Attempt(r, outcomes[0]).0, outcomes[1..], b - 1)
  }

  /**
   Whatever failed before, an attempt ends the cleanup exactly if the launch thread is
   over and none of its calls fails; then nothing is owned, and later attempts call nothing.
   */
  lemma {:induction false} CleanAttemptEndsIt(r: Owned, outcomes: seq<Outcomes>, b: nat)
    requires b < |outcomes|
    ensures var h := History(r, outcomes);
      && |h| == |outcomes|
      && (Succeeds(r, outcomes, b) <==> !outcomes[b].launching && AllOk(h[b]))
      && (Succeeds(r, outcomes, b) ==> After(r, outcomes) == Nothing && forall k :: b < k < |h| ==> h[k] == [])
    decreases outcomes
  {
    var next, rest := Attempt(r, outcomes[0]).0, outcomes[1..];
    SuccessMeansNothingIsLeft(r, outcomes[0]);
    hide Attempt, AllOk;
    NothingStaysNothing(rest);
    HistoryLength(next, rest);
    var h, later := History(r, outcomes), History(next, rest);
    assert h == [Attempt(r, outcomes[0]).1] + later;
    if b > 0 { CleanAttemptEndsIt(next, rest, b - 1); }
  }

  lemma {:induction false} HistoryLength(r: Owned, outcomes: seq<Outcomes>)
    ensures |History(r, outcomes)| == |outcomes|
    decreases outcomes
  {
    if outcomes != [] { HistoryLength(Attempt(r, outcomes[0]).0, outcomes[1..]); }
  }

  lemma {:induction false} NothingStaysNothing(outcomes: seq<Outcomes>)
    ensures After(Nothing, outcomes) == Nothing
    ensures forall k :: 0 <= k < |History(Nothing, outcomes)| ==> History(Nothing, outcomes)[k] == []
    decreases outcomes
  {
    if outcomes != [] {
      SuccessMeansNothingIsLeft(Nothing, outcomes[0]);
      NothingStaysNothing(outcomes[1..]);
    }
  }
}
