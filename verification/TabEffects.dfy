/**
 What each mutator makes of the tabs themselves: their contents, their order, which one
 is shown, and when an observer is asked to save.
 */
module TabEffects {
  import opened Common
  import opened Utf16
  import opened Titles
  import opened TabModel
  import opened TabTheorems

  /** A tab that has shown nothing yet: not loading, and an error page exactly if it is a trusted error. */
  predicate Asleep(tab: Tab) {
    var p := tab.presentation;
    p.lifecycle == Dormant && !p.loading && p.progress == 0 && p.visual == if tab.snapshot.kind == TrustedError then ErrorPage else Normal
  }

  /** A tab was added at the end; it is shown if that was asked or nothing else was. */
  predicate Adds(m: Model, m': Model, makeActive: bool) {
    && |m'.tabs| == |m.tabs| + 1 && m'.tabs[..|m.tabs|] == m.tabs && Asleep(m'.tabs[|m.tabs|])
    && m'.active == if makeActive || m.tabs == [] then |m.tabs| else m.active
  }

  lemma CreatesExactly(m: Model, kind: Kind, title: Text, address: Text, makeActive: bool, id: Text)
    requires Valid(m)
    ensures var (m', created) := Create(m, kind, title, address, makeActive, id);
      && created == (if |m.tabs| < MaxOpenTabs && address != [] && CanonicalTitle(title).Some? then Some(id) else None)
      && (created.None? ==> m' == m)
      && (created.Some? ==>
            && Adds(m, m', makeActive) && m'.closed == m.closed
            && m'.tabs[|m.tabs|].snapshot == Snapshot(id, kind, CanonicalTitle(title).value, address, [address], 0))
  {}

  lemma ReopensExactly(m: Model, makeActive: bool, id: Text)
    requires Valid(m)
    ensures var (m', reopened) := Reopen(m, makeActive, id);
      && reopened == (if |m.tabs| < MaxOpenTabs && m.closed != [] then Some(id) else None)
      && (reopened.None? ==> m' == m)
      && (reopened.Some? ==>
            var last := |m.closed| - 1;
            && Adds(m, m', makeActive) && m'.closed == m.closed[..last]
            && m'.tabs[|m.tabs|].snapshot == m.closed[last].(id := id))
  {}

  /** Closing the tab that is shown shows the one after it, or else the one before; any other keeps what is shown. */
  lemma ClosesExactly(m: Model, index: int)
    requires Valid(m)
    ensures var (m', ok) := Close(m, index);
      && (ok <==> 0 <= index < |m.tabs|) && (!ok ==> m' == m)
      && (ok ==>
            && |m'.tabs| == |m.tabs| - 1
            && (forall k :: 0 <= k < index ==> m'.tabs[k] == m.tabs[k])
            && (forall k :: index < k < |m.tabs| ==> m'.tabs[k - 1] == m.tabs[k])
            && m'.closed == Newest(m.closed + [m.tabs[index].snapshot], MaxRecentlyClosed)
            && ActiveId(m') == if index != m.active then ActiveId(m)
                               else if index + 1 < |m.tabs| then m.tabs[index + 1].snapshot.id
                               else if index > 0 then m.tabs[index - 1].snapshot.id
                               else [])
  {
    if 0 <= index < |m.tabs| {
      var m' := Close(m, index).0;
      if index != m.active { CloseKeeps(m, index); }
      hide Valid, IndexOfId;
      forall k | 0 <= k < |m.tabs| && k != index ensures m'.tabs[if k > index then k - 1 else k] == m.tabs[k] {
        RemovedAt(m.tabs, index, k);
      }
    }
  }

  /** The moved tab arrives whole, and the others keep their order; the tab that is shown stays shown. */
  lemma MovesExactly(m: Model, from: int, to: int)
    requires Valid(m)
    ensures var (m', ok) := Move(m, from, to);
      && (ok <==> 0 <= from < |m.tabs| && 0 <= to < |m.tabs|) && (!ok || from == to ==> m' == m)
      && (ok ==>
            && |m'.tabs| == |m.tabs| && m'.tabs[to] == m.tabs[from] && m'.closed == m.closed
            && m'.tabs[..to] + m'.tabs[to + 1..] == m.tabs[..from] + m.tabs[from + 1..]
            && InRange(m'.tabs, m'.active) && m'.tabs[m'.active] == m.tabs[m.active])
  {
    if 0 <= from < |m.tabs| && 0 <= to < |m.tabs| && from != to {
      var m' := Move(m, from, to).0;
      MovedSelection(m, from, to);
      hide Valid, IndexOfId;
      var rest := Removed(m.tabs, from);
      assert m'.tabs[..to] == rest[..to] && m'.tabs[to + 1..] == rest[to..];
      assert rest == rest[..to] + rest[to..];
    }
  }

  lemma ActivatesExactly(m: Model, index: int)
    requires Valid(m)
    ensures var (m', ok) := Activate(m, index);
      && (ok <==> 0 <= index < |m.tabs|)
      && m' == m.(active := if ok then index else m.active, signals := m'.signals)
  {}

  /** At most the tab with that id changes, and only as the predicate says. */
  predicate OnlyOne(m: Model, m': Model, id: Text) {
    && |m'.tabs| == |m.tabs| && m' == m.(tabs := m'.tabs, signals := m'.signals)
    && forall k :: 0 <= k < |m.tabs| ==> m'.tabs[k] == m.tabs[k] || (m.tabs[k].snapshot.id == id && k == IndexOfId(m.tabs, id))
  }

  lemma TitlesExactly(m: Model, id: Text, title: Text)
    requires Valid(m)
    ensures var (m', ok) := SetTitle(m, id, title);
      var i := IndexOfId(m.tabs, id);
      && (ok <==> i >= 0 && CanonicalTitle(title).Some?) && OnlyOne(m, m', id)
      && (ok ==> m'.tabs[i] == m.tabs[i].(snapshot := m.tabs[i].snapshot.(title := CanonicalTitle(title).value)))
  {}

  lemma ShowsExactly(m: Model, id: Text, presentation: Presentation)
    requires !m.busy
    ensures var (i, (m', ok)) := (IndexOfId(m.tabs, id), SetPresentation(m, id, presentation));
      (ok <==> i >= 0) && OnlyOne(m, m', id) && (ok ==> m'.tabs[i] == m.tabs[i].(presentation := presentation))
  {}

  /** Each setter sets its own field. */
  lemma StatesExactly(m: Model, id: Text, lifecycle: Lifecycle, loading: bool, progress: int, visual: VisualState)
    requires Valid(m)
    ensures var (i, (m1, ok)) := (IndexOfId(m.tabs, id), SetLifecycle(m, id, lifecycle));
      && (ok <==> i >= 0) && OnlyOne(m, m1, id)
      && (ok ==> m1.tabs[i] == m.tabs[i].(presentation := m.tabs[i].presentation.(lifecycle := lifecycle)))
    ensures var (i, (m2, ok)) := (IndexOfId(m.tabs, id), SetLoadState(m, id, loading, progress));
      && (ok <==> i >= 0) && OnlyOne(m, m2, id)
      && (ok ==>
            && m2.tabs[i] == m.tabs[i].(presentation := m.tabs[i].presentation.(loading := loading,
                                                                                progress := m2.tabs[i].presentation.progress))
            && 0 <= m2.tabs[i].presentation.progress <= 100
            && (0 <= progress <= 100 ==> m2.tabs[i].presentation.progress == progress)
            && (progress < 0 ==> m2.tabs[i].presentation.progress == 0)
            && (progress > 100 ==> m2.tabs[i].presentation.progress == 100))
    ensures var (i, (m3, ok)) := (IndexOfId(m.tabs, id), SetVisualState(m, id, visual));
      && (ok <==> i >= 0) && OnlyOne(m, m3, id)
      && (ok ==> m3.tabs[i] == m.tabs[i].(presentation := m.tabs[i].presentation.(visual := visual)))
  {
    hide SetPresentation, OnlyOne;
    var p := PresentationOf(m, id);
    ShowsExactly(m, id, p.(lifecycle := lifecycle));
    ShowsExactly(m, id, p.(loading := loading, progress := Clamped(progress)));
    ShowsExactly(m, id, p.(visual := visual));
  }

  // ---- When observers are told ----------------------------------------------------------------

  predicate IsSave(s: Signal) { s.PersistenceNeeded? }

  function IsChange(i: int): Signal -> bool { (s: Signal) => s == TabChanged(i) }

  function Snapshots(tabs: seq<Tab>): (snapshots: seq<Snapshot>)
    ensures |snapshots| == |tabs| && forall i :: 0 <= i < |tabs| ==> snapshots[i] == tabs[i].snapshot
  {
    seq(|tabs|, i requires 0 <= i < |tabs| => tabs[i].snapshot)
  }

  /** Something that is saved differs. */
  predicate Differs(m: Model, m': Model) {
    Snapshots(m'.tabs) != Snapshots(m.tabs) || m'.active != m.active
  }

  /** The signals that were added ask once to save, or not at all. */
  predicate Asks(m: Model, m': Model, once: bool) {
    Count(m'.signals, IsSave) == Count(m.signals, IsSave) + if once then 1 else 0
  }

  lemma AsksFor(m: Model, m': Model, signals: seq<Signal>)
    requires m'.signals == m.signals + signals && |signals| <= 3
    requires forall i :: 0 <= i < |signals| - 1 ==> !signals[i].PersistenceNeeded?
    ensures Asks(m, m', signals != [] && signals[|signals| - 1].PersistenceNeeded?)
  {
    CountAppend(m.signals, signals, IsSave);
    if signals != [] {
      var front := signals[..|signals| - 1];
      CountZero(front, IsSave);
      assert signals == front + [signals[|signals| - 1]];
      CountSnoc(front, signals[|signals| - 1], IsSave);
    } else {
      CountZero(signals, IsSave);
    }
  }

  lemma AppendedAsks(m: Model, tab: Tab, makeActive: bool)
    ensures Asks(m, Appended(m, tab, makeActive), true) && Differs(m, Appended(m, tab, makeActive))
  {
    var m' := Appended(m, tab, makeActive);
    AsksFor(m, m', [TabInserted(|m.tabs|, tab.snapshot.id)] + ActiveChange(m.active, m'.active) + [PersistenceNeeded]);
  }

  lemma ChangedAsks(m: Model, index: int, tab: Tab, saved: bool)
    requires InRange(m.tabs, index)
    requires if saved then tab.snapshot != m.tabs[index].snapshot else tab.snapshot == m.tabs[index].snapshot
    ensures var m' := if saved then Changed(m, index, tab) else Emitted(m.(tabs := m.tabs[index := tab]), [TabChanged(index)]);
      Asks(m, m', saved) && (Differs(m, m') <==> saved)
  {
    var m' := if saved then Changed(m, index, tab) else Emitted(m.(tabs := m.tabs[index := tab]), [TabChanged(index)]);
    AsksFor(m, m', if saved then [TabChanged(index), PersistenceNeeded] else [TabChanged(index)]);
    assert Snapshots(m'.tabs)[index] == tab.snapshot;
    assert !saved ==> Snapshots(m'.tabs) == Snapshots(m.tabs);
  }

  lemma NothingAsks(m: Model)
    ensures Asks(m, m, false) && !Differs(m, m)
  {}

  lemma MoveAsks(m: Model, from: int, to: int)
    requires Valid(m)
    ensures var m' := Move(m, from, to).0; Asks(m, m', Differs(m, m'))
  {
    NothingAsks(m);
    if 0 <= from < |m.tabs| && 0 <= to < |m.tabs| && from != to {
      var m' := Move(m, from, to).0;
      AsksFor(m, m', [TabMoved(from, to)] + ActiveChange(m.active, m'.active) + [PersistenceNeeded]);
      MovedAt(m.tabs, from, to, from);
      DistinctParts(m);
      hide Valid, AllIds;
      assert Ids(m.tabs)[to] != Ids(m.tabs)[from];
      assert Snapshots(m'.tabs)[to].id != Snapshots(m.tabs)[to].id;
    }
  }

  lemma CloseAsks(m: Model, index: int)
    requires Valid(m)
    ensures var m' := Close(m, index).0; Asks(m, m', Differs(m, m'))
  {
    NothingAsks(m);
    if InRange(m.tabs, index) {
      var m' := Close(m, index).0;
      var change := if m.active != m'.active || ActiveId(m) != ActiveId(m'.(signals := m.signals))
                    then [ActiveTabChanged(m.active, m'.active)] else [];
      hide Valid, ActiveId, IndexOfId, Newest;
      AsksFor(m, m', [TabRemoved(index, m.tabs[index].snapshot.id)] + change + [PersistenceNeeded]);
      assert |Snapshots(m'.tabs)| == |Snapshots(m.tabs)| - 1;
    }
  }

  lemma ActivateAsks(m: Model, index: int)
    ensures var m' := Activate(m, index).0; Asks(m, m', Differs(m, m'))
  {
    NothingAsks(m);
    var m' := Activate(m, index).0;
    if m' != m { AsksFor(m, m', [ActiveTabChanged(m.active, index), PersistenceNeeded]); }
  }

  lemma VisitAsks(m: Model, id: Text, kind: Kind, address: Text)
    requires Valid(m)
    ensures var m' := Navigate(m, id, kind, address).0; Asks(m, m', Differs(m, m'))
  {
    NothingAsks(m);
    var index := IndexOfId(m.tabs, id);
    if index >= 0 && address != [] {
      var tab := m.tabs[index];
      assert tab in m.tabs;
      assert tab.snapshot.history[tab.snapshot.historyIndex] == tab.snapshot.address;
      hide Valid, Asks, Differs;
      var visited := if tab.snapshot.address == address then tab else tab.(snapshot := Visited(tab.snapshot, address));
      if WithKind(visited, kind).snapshot != tab.snapshot { ChangedAsks(m, index, WithKind(visited, kind), true); }
    }
  }

  lemma TravelAsks(m: Model, id: Text, kind: Kind, step: int)
    requires step != 0
    ensures var m' := Step(m, id, kind, step).0; Asks(m, m', Differs(m, m'))
  {
    NothingAsks(m);
    var index := IndexOfId(m.tabs, id);
    hide Asks, Differs;
    if index >= 0 {
      var tab := m.tabs[index];
      var to := tab.snapshot.historyIndex + step;
      if InRange(tab.snapshot.history, to) {
        var there := tab.(snapshot := tab.snapshot.(historyIndex := to, address := tab.snapshot.history[to]));
        ChangedAsks(m, index, WithKind(there, kind), true);
      }
    }
  }

  lemma SetterAsks(m: Model, id: Text, title: Text, presentation: Presentation)
    ensures var m' := SetTitle(m, id, title).0; Asks(m, m', Differs(m, m'))
    ensures var m' := SetPresentation(m, id, presentation).0; Asks(m, m', Differs(m, m'))
  {
    NothingAsks(m);
    var index := IndexOfId(m.tabs, id);
    if index >= 0 {
      hide Asks, Differs;
      var tab := m.tabs[index];
      ChangedAsks(m, index, tab.(presentation := presentation), false);
      var safeTitle := CanonicalTitle(title);
      if safeTitle.Some? && tab.snapshot.title != safeTitle.value {
        ChangedAsks(m, index, tab.(snapshot := tab.snapshot.(title := safeTitle.value)), true);
      }
    }
  }

  /**
   Whatever a call does, it asks once to save if snapshots, their order or the selection
   changed, and not otherwise; replacing the session by a saved one never asks.
   */
  lemma SavingIsAskedExactlyWhen(m: Model, c: Call)
    requires Valid(m)
    ensures Asks(m, Apply(m, c), Differs(m, Apply(m, c)) && !c.CallReplace?)
  {
    hide Valid, Create, Activate, Move, Close, Reopen, Navigate, Step, SetTitle, SetPresentation, Replace, Asks, Differs;
    match c
    case CallCreate(kind, title, address, makeActive, id) => CreateAsks(m, kind, title, address, makeActive, id);
    case CallActivate(index) => ActivateAsks(m, index);
    case CallMove(from, to) => MoveAsks(m, from, to);
    case CallClose(index) => CloseAsks(m, index);
    case CallReopen(makeActive, id) => ReopenAsks(m, makeActive, id);
    case CallNavigate(tab, kind, address) => VisitAsks(m, tab, kind, address);
    case CallBack(tab, kind) => TravelAsks(m, tab, kind, -1);
    case CallForward(tab, kind) => TravelAsks(m, tab, kind, 1);
    case CallSetTitle(tab, title) => SetterAsks(m, tab, title, DefaultPresentation(Host));
    case CallSetLifecycle(tab, lifecycle) => SetterAsks(m, tab, [], PresentationOf(m, tab).(lifecycle := lifecycle));
    case CallSetLoadState(tab, loading, progress) =>
      SetterAsks(m, tab, [], PresentationOf(m, tab).(loading := loading, progress := Clamped(progress)));
    case CallSetVisualState(tab, visual) => SetterAsks(m, tab, [], PresentationOf(m, tab).(visual := visual));
    case CallReplace(snapshots, active) => ReplaceAsks(m, snapshots, active);
  }

  lemma CreateAsks(m: Model, kind: Kind, title: Text, address: Text, makeActive: bool, id: Text)
    ensures var m' := Create(m, kind, title, address, makeActive, id).0; Asks(m, m', Differs(m, m'))
  {
    NothingAsks(m);
    if CanonicalTitle(title).Some? {
      AppendedAsks(m, DormantTab(Snapshot(id, kind, CanonicalTitle(title).value, address, [address], 0)), makeActive);
    }
  }

  lemma ReopenAsks(m: Model, makeActive: bool, id: Text)
    ensures var m' := Reopen(m, makeActive, id).0; Asks(m, m', Differs(m, m'))
  {
    NothingAsks(m);
    if m.closed != [] {
      var last := |m.closed| - 1;
      AppendedAsks(m.(closed := m.closed[..last]), DormantTab(m.closed[last].(id := id)), makeActive);
    }
  }

  lemma {:induction false} LogsDoNotSave(ids: seq<Text>)
    ensures Count(RemovalLog(ids), IsSave) == 0 && Count(InsertionLog(ids), IsSave) == 0
    decreases |ids|
  {
    if ids != [] {
      var last := |ids| - 1;
      LogsDoNotSave(ids[..last]);
      CountSnoc(InsertionLog(ids[..last]), TabInserted(last, ids[last]), IsSave);
      CountAppend([TabRemoved(last, ids[last])], RemovalLog(ids[..last]), IsSave);
    }
  }

  lemma ReplaceAsks(m: Model, snapshots: seq<Snapshot>, active: int)
    ensures Asks(m, Replace(m, snapshots, active).0, false)
  {
    var m' := Replace(m, snapshots, active).0;
    if m'.signals != m.signals {
      var (gone, made) := (RemovalLog(Ids(m.tabs)), InsertionLog(ClosedIds(snapshots)));
      var change := if snapshots != [] || m.active != -1 then [ActiveTabChanged(m.active, active)] else [];
      LogsDoNotSave(Ids(m.tabs));
      LogsDoNotSave(ClosedIds(snapshots));
      CountAppend(gone, made, IsSave);
      CountAppend(gone + made, change, IsSave);
      CountAppend(m.signals, gone + made + change, IsSave);
      CountZero(change, IsSave);
    }
  }

  /** Calls that leave the tabs where they are. */
  predicate InPlace(c: Call) {
    || c.CallNavigate? || c.CallBack? || c.CallForward? || c.CallSetTitle?
    || c.CallSetLifecycle? || c.CallSetLoadState? || c.CallSetVisualState?
  }

  predicate TellsChange(m: Model, m': Model, k: int) {
    && InRange(m.tabs, k) && |m'.tabs| == |m.tabs|
    && Count(m'.signals, IsChange(k)) == Count(m.signals, IsChange(k)) + if m'.tabs[k] != m.tabs[k] then 1 else 0
  }

  lemma ChangedTells(m: Model, index: int, tab: Tab, saved: bool, k: int)
    requires InRange(m.tabs, index) && InRange(m.tabs, k) && tab != m.tabs[index]
    ensures var m' := if saved then Changed(m, index, tab) else Emitted(m.(tabs := m.tabs[index := tab]), [TabChanged(index)]);
      TellsChange(m, m', k)
  {
    CountSnoc(m.signals, TabChanged(index), IsChange(k));
    CountSnoc(m.signals + [TabChanged(index)], PersistenceNeeded, IsChange(k));
    assert m.signals + [TabChanged(index)] + [PersistenceNeeded] == m.signals + [TabChanged(index), PersistenceNeeded];
  }

  /** Observers are told once of a tab whose contents changed in its place, and of no other. */
  lemma ChangesAreToldExactly(m: Model, c: Call, k: int)
    requires Valid(m) && InPlace(c) && InRange(m.tabs, k)
    ensures TellsChange(m, Apply(m, c), k)
  {
    hide Navigate, Step, SetTitle, SetPresentation, Valid, TellsChange;
    match c
    case CallNavigate(tab, kind, address) => VisitTells(m, tab, kind, address, k);
    case CallBack(tab, kind) => TravelTells(m, tab, kind, -1, k);
    case CallForward(tab, kind) => TravelTells(m, tab, kind, 1, k);
    case CallSetTitle(tab, title) => SetterTells(m, tab, title, DefaultPresentation(Host), k);
    case CallSetLifecycle(tab, lifecycle) => SetterTells(m, tab, [], PresentationOf(m, tab).(lifecycle := lifecycle), k);
    case CallSetLoadState(tab, loading, progress) =>
      SetterTells(m, tab, [], PresentationOf(m, tab).(loading := loading, progress := Clamped(progress)), k);
    case CallSetVisualState(tab, visual) => SetterTells(m, tab, [], PresentationOf(m, tab).(visual := visual), k);
    case _ =>
  }

  lemma VisitTells(m: Model, id: Text, kind: Kind, address: Text, k: int)
    requires Valid(m) && InRange(m.tabs, k)
    ensures TellsChange(m, Navigate(m, id, kind, address).0, k)
  {
    var index := IndexOfId(m.tabs, id);
    assert TellsChange(m, m, k);
    if index >= 0 && address != [] {
      var tab := m.tabs[index];
      assert tab in m.tabs;
      assert tab.snapshot.history[tab.snapshot.historyIndex] == tab.snapshot.address;
      hide Valid, TellsChange;
      var visited := if tab.snapshot.address == address then tab else tab.(snapshot := Visited(tab.snapshot, address));
      if WithKind(visited, kind) != tab { ChangedTells(m, index, WithKind(visited, kind), true, k); }
    }
  }

  lemma TravelTells(m: Model, id: Text, kind: Kind, step: int, k: int)
    requires step != 0 && InRange(m.tabs, k)
    ensures TellsChange(m, Step(m, id, kind, step).0, k)
  {
    var index := IndexOfId(m.tabs, id);
    assert TellsChange(m, m, k);
    hide TellsChange;
    if index >= 0 {
      var tab := m.tabs[index];
      var to := tab.snapshot.historyIndex + step;
      if InRange(tab.snapshot.history, to) {
        var there := tab.(snapshot := tab.snapshot.(historyIndex := to, address := tab.snapshot.history[to]));
        ChangedTells(m, index, WithKind(there, kind), true, k);
      }
    }
  }

  lemma SetterTells(m: Model, id: Text, title: Text, presentation: Presentation, k: int)
    requires InRange(m.tabs, k)
    ensures TellsChange(m, SetTitle(m, id, title).0, k) && TellsChange(m, SetPresentation(m, id, presentation).0, k)
  {
    var index := IndexOfId(m.tabs, id);
    assert TellsChange(m, m, k);
    hide TellsChange;
    if index >= 0 {
      var tab := m.tabs[index];
      if tab.presentation != presentation { ChangedTells(m, index, tab.(presentation := presentation), false, k); }
      var safeTitle := CanonicalTitle(title);
      if safeTitle.Some? && tab.snapshot.title != safeTitle.value {
        ChangedTells(m, index, tab.(snapshot := tab.snapshot.(title := safeTitle.value)), true, k);
      }
    }
  }
}
