/** A tab's bounded history against the history a browser without a limit would hold. */
module TabHistory {
  import opened Common
  import opened Utf16
  import opened TabModel
  import opened TabTheorems

  datatype Trail = Trail(history: seq<Text>, index: int)

  datatype Travel = Visit(address: Text) | Back | Forward

  function TrailOf(s: Snapshot): Trail {
    Trail(s.history, s.historyIndex)
  }

  predicate Walkable(t: Trail) { InRange(t.history, t.index) }

  /** The browser without a limit; none if the step is refused. */
  function Unlimited(t: Trail, step: Travel): Option<Trail>
    requires Walkable(t)
  {
    match step
    case Visit(address) =>
      if address == [] then None
      else if t.history[t.index] == address then Some(t)
      else Some(Trail(t.history[..t.index + 1] + [address], t.index + 1))
    case Back => if t.index > 0 then Some(t.(index := t.index - 1)) else None
    case Forward => if t.index + 1 < |t.history| then Some(t.(index := t.index + 1)) else None
  }

  /** The tab model's own step. */
  function TravelTab(m: Model, id: Text, kind: Kind, step: Travel): (Model, bool) {
    match step
    case Visit(address) => Navigate(m, id, kind, address)
    case Back => Step(m, id, kind, -1)
    case Forward => Step(m, id, kind, 1)
  }

  /** `limited` is what is left of `full` when its oldest entries are dropped. */
  predicate Refines(limited: Trail, full: Trail) {
    var dropped := |full.history| - |limited.history|;
    && Walkable(limited) && Walkable(full) && dropped >= 0
    && limited.history == full.history[dropped..] && limited.index == full.index - dropped
    && |limited.history| <= MaxHistoryEntries
  }

  predicate NoRepeats(history: seq<Text>) {
    forall i :: 0 <= i < |history| - 1 ==> history[i] != history[i + 1]
  }

  /** What one accepted step does to the tab's trail, in one formula. */
  function Limited(t: Trail, step: Travel): Option<Trail>
    requires Walkable(t)
  {
    var next := Unlimited(t, step);
    if next.None? || |next.value.history| <= MaxHistoryEntries then next
    else Some(Trail(Newest(next.value.history, MaxHistoryEntries), MaxHistoryEntries - 1))
  }

  lemma VisitedTrail(s: Snapshot, address: Text)
    requires ValidHistory(s) && address != [] && s.history[s.historyIndex] != address
    ensures Limited(TrailOf(s), Visit(address)) == Some(TrailOf(Visited(s, address)))
  {
    assert Upto(s.history, s.historyIndex + 1) == s.history[..s.historyIndex + 1];
  }

  /**
   After an accepted step the tab has the validated kind and keeps id and title.  What is
   shown of its state is kept too if the kind is the same; a tab of another kind starts
   over as dormant, not loading, and as an error page exactly if it is a trusted error.
   */
  predicate Arrives(before: Tab, after: Tab, kind: Kind) {
    && after.snapshot.kind == kind && after.snapshot.title == before.snapshot.title && after.snapshot.id == before.snapshot.id
    && (before.snapshot.kind == kind ==> after.presentation == before.presentation)
    && (before.snapshot.kind != kind ==>
          && after.presentation.lifecycle == Dormant && !after.presentation.loading && after.presentation.progress == 0
          && after.presentation.visual == if kind == TrustedError then ErrorPage else Normal)
  }

  /** Only the tab at `i` changes, and it keeps its id. */
  predicate OnlyTab(m: Model, m': Model, i: int, id: Text) {
    && |m'.tabs| == |m.tabs| && InRange(m'.tabs, i) && m'.tabs[i].snapshot.id == id
    && forall j :: 0 <= j < |m.tabs| && j != i ==> m'.tabs[j] == m.tabs[j]
  }

  lemma VisitEffect(m: Model, id: Text, kind: Kind, address: Text, i: int)
    requires !m.busy && i == IndexOfId(m.tabs, id) >= 0 && ValidHistory(m.tabs[i].snapshot)
    ensures var (t, (m', ok)) := (TrailOf(m.tabs[i].snapshot), Navigate(m, id, kind, address));
      && (ok <==> Limited(t, Visit(address)).Some?) && (!ok ==> m' == m) && OnlyTab(m, m', i, id)
      && (ok ==> TrailOf(m'.tabs[i].snapshot) == Limited(t, Visit(address)).value && Arrives(m.tabs[i], m'.tabs[i], kind))
  {
    var s := m.tabs[i].snapshot;
    if address != [] && s.history[s.historyIndex] != address {
      VisitedTrail(s, address);
      hide Visited, Limited;
    }
  }

  lemma StepEffect(m: Model, id: Text, kind: Kind, step: Travel, i: int)
    requires !m.busy && i == IndexOfId(m.tabs, id) >= 0 && ValidHistory(m.tabs[i].snapshot) && !step.Visit?
    ensures var (t, (m', ok)) := (TrailOf(m.tabs[i].snapshot), TravelTab(m, id, kind, step));
      && (ok <==> Limited(t, step).Some?) && (!ok ==> m' == m) && OnlyTab(m, m', i, id)
      && (ok ==> TrailOf(m'.tabs[i].snapshot) == Limited(t, step).value && Arrives(m.tabs[i], m'.tabs[i], kind))
  {}

  lemma TravelKeeps(m: Model, id: Text, kind: Kind, step: Travel)
    requires Valid(m)
    ensures Valid(TravelTab(m, id, kind, step).0)
  {
    hide Valid, Navigate, Step;
    match step
    case Visit(address) => NavigateKeeps(m, id, kind, address);
    case Back => StepKeeps(m, id, kind, -1);
    case Forward => StepKeeps(m, id, kind, 1);
  }

  /** The model's mutators step a tab's trail, give it the validated kind, and touch no other tab. */
  lemma TravelIsLimited(m: Model, id: Text, kind: Kind, step: Travel)
    requires Valid(m) && IndexOfId(m.tabs, id) >= 0
    ensures var (i, (m', ok)) := (IndexOfId(m.tabs, id), TravelTab(m, id, kind, step));
      var t := TrailOf(m.tabs[i].snapshot);
      && Valid(m') && IndexOfId(m'.tabs, id) == i && Walkable(t)
      && (ok <==> Limited(t, step).Some?)
      && (ok ==> TrailOf(m'.tabs[i].snapshot) == Limited(t, step).value && Arrives(m.tabs[i], m'.tabs[i], kind))
      && (!ok ==> m' == m)
      && forall j :: 0 <= j < |m.tabs| && j != i ==> |m'.tabs| == |m.tabs| && m'.tabs[j] == m.tabs[j]
  {
    var i, m' := IndexOfId(m.tabs, id), TravelTab(m, id, kind, step).0;
    assert m.tabs[i] in m.tabs;
    TravelKeeps(m, id, kind, step);
    if step.Visit? { VisitEffect(m, id, kind, step.address, i); } else { StepEffect(m, id, kind, step, i); }
    DistinctParts(m');
    hide TravelTab, Limited, AllIds;
    IndexIsUnique(m'.tabs, i);
  }

  lemma VisitRefines(limited: Trail, full: Trail, address: Text)
    requires Refines(limited, full) && address != [] && full.history[full.index] != address
    ensures limited.history[limited.index] == full.history[full.index]
    ensures Refines(Limited(limited, Visit(address)).value, Unlimited(full, Visit(address)).value)
  {
    var dropped := |full.history| - |limited.history|;
    assert limited.history[limited.index] == full.history[dropped..][limited.index];
    var l, f := limited.history[..limited.index + 1] + [address], full.history[..full.index + 1] + [address];
    assert l == f[dropped..];
    var r := Limited(limited, Visit(address)).value;
    var d := |f| - |r.history|;
    assert r.history == f[d..];
  }

  /** The step, made in both browsers: the limited one refuses only to go back beyond what it has dropped. */
  lemma StepRefines(limited: Trail, full: Trail, step: Travel)
    requires Refines(limited, full)
    ensures Limited(limited, step).Some? ==>
              && Unlimited(full, step).Some?
              && Refines(Limited(limited, step).value, Unlimited(full, step).value)
    ensures Limited(limited, step).None? && Unlimited(full, step).Some? <==>
              step == Back && limited.index == 0 && |full.history| > |limited.history|
  {
    var dropped := |full.history| - |limited.history|;
    assert limited.history[limited.index] == full.history[dropped..][limited.index] == full.history[full.index];
    if step.Visit? && step.address != [] && full.history[full.index] != step.address {
      VisitRefines(limited, full, step.address);
    }
  }

  lemma StepKeepsDistinct(t: Trail, step: Travel)
    requires Walkable(t) && NoRepeats(t.history) && Limited(t, step).Some?
    ensures NoRepeats(Limited(t, step).value.history)
  {
    if step.Visit? && t.history[t.index] != step.address {
      var next := t.history[..t.index + 1] + [step.address];
      forall i | 0 <= i < |next| - 1 ensures next[i] != next[i + 1] {
        if i < t.index { assert t.history[i] != t.history[i + 1]; }
      }
      assert NoRepeats(next);
      var d := |next| - |Newest(next, MaxHistoryEntries)|;
      forall i | 0 <= i < |Newest(next, MaxHistoryEntries)| - 1
        ensures Newest(next, MaxHistoryEntries)[i] != Newest(next, MaxHistoryEntries)[i + 1]
      {
        assert next[d + i] != next[d + i + 1];
      }
    }
  }

  // ---- Runs -------------------------------------------------------------------------------------

  datatype Trip = Trip(kind: Kind, step: Travel)

  function TravelAll(m: Model, id: Text, trips: seq<Trip>): Model
    decreases trips
  {
    if trips == [] then m else TravelAll(TravelTab(m, id, trips[0].kind, trips[0].step).0, id, trips[1..])
  }

  predicate AllAccepted(m: Model, id: Text, trips: seq<Trip>)
    decreases trips
  {
    trips == [] ||
    var (m', ok) := TravelTab(m, id, trips[0].kind, trips[0].step);
    ok && AllAccepted(m', id, trips[1..])
  }

  function UnlimitedAll(t: Trail, trips: seq<Trip>): Option<Trail>
    requires Walkable(t)
    decreases trips
  {
    if trips == [] then Some(t)
    else
      var next := Unlimited(t, trips[0].step);
      if next.None? then None else UnlimitedAll(next.value, trips[1..])
  }

  /**
   After any accepted steps a tab's history is a suffix of the history that a browser
   without a limit holds after the same steps, its index shifted by what was dropped,
   and no entry repeats the one before it if none did.
   */
  lemma {:induction false} HistoryRefinesUnlimited(m: Model, id: Text, full: Trail, trips: seq<Trip>)
    requires Valid(m) && IndexOfId(m.tabs, id) >= 0 && AllAccepted(m, id, trips)
    requires Refines(TrailOf(m.tabs[IndexOfId(m.tabs, id)].snapshot), full)
    ensures var m' := TravelAll(m, id, trips);
      var i := IndexOfId(m.tabs, id);
      && Valid(m') && IndexOfId(m'.tabs, id) == i
      && UnlimitedAll(full, trips).Some?
      && Refines(TrailOf(m'.tabs[i].snapshot), UnlimitedAll(full, trips).value)
      && m'.tabs[i].snapshot.address == UnlimitedAll(full, trips).value.history[UnlimitedAll(full, trips).value.index]
      && (NoRepeats(m.tabs[i].snapshot.history) ==> NoRepeats(m'.tabs[i].snapshot.history))
    decreases trips
  {
    hide Valid;
    var i := IndexOfId(m.tabs, id);
    if trips == [] {
      AddressIsShown(m, i);
    } else {
      var (trip, t) := (trips[0], TrailOf(m.tabs[i].snapshot));
      TravelIsLimited(m, id, trip.kind, trip.step);
      StepRefines(t, full, trip.step);
      if NoRepeats(t.history) { StepKeepsDistinct(t, trip.step); }
      HistoryRefinesUnlimited(TravelTab(m, id, trip.kind, trip.step).0, id, Unlimited(full, trip.step).value, trips[1..]);
    }
  }

  lemma AddressIsShown(m: Model, i: int)
    requires Valid(m) && InRange(m.tabs, i)
    ensures ShowsEntry(m.tabs[i].snapshot) && m.tabs[i].snapshot.address == m.tabs[i].snapshot.history[m.tabs[i].snapshot.historyIndex]
  {
    assert m.tabs[i] in m.tabs;
  }

  /** Going back and then forward restores address, history and index, and with the same kind the whole snapshot. */
  lemma BackThenForward(m: Model, id: Text, kind: Kind)
    requires Valid(m) && IndexOfId(m.tabs, id) >= 0 && Step(m, id, kind, -1).1
    ensures var (i, (m', ok)) := (IndexOfId(m.tabs, id), Step(Step(m, id, kind, -1).0, id, kind, 1));
      && ok && |m'.tabs| == |m.tabs| && m'.tabs[i].snapshot == m.tabs[i].snapshot.(kind := kind)
  {
    TravelIsLimited(m, id, kind, Back);
    AddressIsShown(m, IndexOfId(m.tabs, id));
    hide Valid;
  }
}
