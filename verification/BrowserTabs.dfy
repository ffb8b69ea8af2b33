/**
 The tab model as the object it is.  Observers of its signals may call it again:
 `script` holds, signal by signal, the mutators they will call, and every one of those
 calls is made; the contracts hold whatever they are.
 */
module BrowserTabs {
  import opened Common
  import opened Utf16
  import opened TabModel
  import T = Titles
  import Theory = TabTheorems

  /** The first drawn identifier that is not in use. */
  function FirstUnused(draws: seq<Text>, used: seq<Text>): (id: Text)
    requires exists id <- draws :: id !in used
    ensures id in draws && id !in used
  {
    if draws[0] !in used then draws[0]
    else
      assert draws == [draws[0]] + draws[1..];
      FirstUnused(draws[1..], used)
  }

  class BrowserTabModel {
    var tabs: seq<Tab>
    var recentlyClosed: seq<Snapshot>
    var activeIndex: int
    var mutationInProgress: bool
    var signals: seq<Signal>
    var script: seq<seq<Theory.Call>>

    function View(): Model reads this { Model(tabs, recentlyClosed, activeIndex, mutationInProgress, signals) }

    constructor (script: seq<seq<Theory.Call>>)
      ensures View() == EmptyModel
    {
      tabs, recentlyClosed, activeIndex, mutationInProgress, signals := [], [], -1, false, [];
      this.script := script;
    }

    /** The signal goes out, and its observers make their calls. */
    method Emit(s: Signal)
      requires mutationInProgress
      modifies this
      ensures View() == Emitted(old(View()), [s]) && |script| <= |old(script)|
      decreases |script|, 1
    {
      signals := signals + [s];
      if script == [] { return; }
      var calls := script[0];
      script := script[1..];
      var i := 0;
      while i < |calls|
        invariant View() == Emitted(old(View()), [s]) && |script| < |old(script)|
      {
        Reenter(calls[i]);
        i := i + 1;
      }
    }

    /** A call made while a mutator is running has no effect. */
    method Reenter(call: Theory.Call)
      requires mutationInProgress
      modifies this
      ensures View() == old(View()) && |script| <= |old(script)|
      decreases |script|, 5
    {
      match call {
        case CallCreate(kind, title, address, makeActive, id) => var _ := CreateTab(kind, title, address, makeActive, [id]);
        case CallActivate(index) => var _ := ActivateTab(index);
        case CallMove(from, to) => var _ := MoveTab(from, to);
        case CallClose(index) => var _ := CloseTab(index);
        case CallReopen(makeActive, id) => var _ := ReopenMostRecentlyClosed(makeActive, [id]);
        case CallNavigate(tab, kind, address) => var _ := NavigateTab(tab, kind, address);
        case CallBack(tab, kind) => var _ := GoBack(tab, kind);
        case CallForward(tab, kind) => var _ := GoForward(tab, kind);
        case CallSetTitle(tab, title) => var _ := SetTabTitle(tab, title);
        case CallSetLifecycle(tab, lifecycle) => var _ := SetTabLifecycle(tab, lifecycle);
        case CallSetLoadState(tab, loading, progress) => var _ := SetTabLoadState(tab, loading, progress);
        case CallSetVisualState(tab, visual) => var _ := SetTabVisualState(tab, visual);
        case CallReplace(snapshots, active) => var _ := ReplaceFromValidatedSnapshot(snapshots, active);
      }
    }

    method EmitChanges(structural: Signal, oldActive: int, changed: bool)
      requires mutationInProgress
      modifies this
      ensures View() == Emitted(old(View()), [structural] + (if changed then [ActiveTabChanged(oldActive, old(activeIndex))] else [])
                                             + [PersistenceNeeded])
      ensures |script| <= |old(script)|
      decreases |script|, 2
    {
      Emit(structural);
      if changed { Emit(ActiveTabChanged(oldActive, activeIndex)); }
      Emit(PersistenceNeeded);
    }

    method GenerateId(draws: seq<Text>) returns (id: Text)
      requires exists id <- draws :: id !in AllIds(View())
      ensures id == FirstUnused(draws, AllIds(View()))
    {
      var i := 0;
      while draws[i] in AllIds(View())
        invariant 0 <= i < |draws| && exists id <- draws[i..] :: id !in AllIds(View())
        invariant FirstUnused(draws[i..], AllIds(View())) == FirstUnused(draws, AllIds(View()))
        decreases |draws| - i
      {
        assert draws[i..] == [draws[i]] + draws[i..][1..];
        assert draws[i + 1..] == draws[i..][1..];
        i := i + 1;
      }
      id := draws[i];
    }

    method AppendTab(tab: Tab, makeActive: bool)
      requires mutationInProgress
      modifies this
      ensures View() == Appended(old(View()), tab, makeActive) && |script| <= |old(script)|
      decreases |script|, 3
    {
      var oldActive, insertedIndex := activeIndex, |tabs|;
      tabs := tabs + [tab];
      if makeActive || activeIndex < 0 { activeIndex := insertedIndex; }
      EmitChanges(TabInserted(insertedIndex, tab.snapshot.id), oldActive, activeIndex != oldActive);
    }

    method CreateTab(kind: Kind, title: Text, address: Text, makeActive: bool, draws: seq<Text>) returns (id: Option<Text>)
      requires !mutationInProgress ==> exists id <- draws :: id !in AllIds(View())
      modifies this
      ensures old(mutationInProgress) ==> View() == old(View()) && id == None
      ensures !old(mutationInProgress) ==>
                (View(), id) == Create(old(View()), kind, title, address, makeActive, FirstUnused(draws, AllIds(old(View()))))
      ensures |script| <= |old(script)|
      decreases |script|, 4
    {
      if mutationInProgress { return None; }
      if |tabs| >= MaxOpenTabs || address == [] { return None; }
      var safeTitle := T.Sanitise(title, false);
      if safeTitle.None? { return None; }
      var newId := GenerateId(draws);
      mutationInProgress := true;
      AppendTab(DormantTab(Snapshot(newId, kind, safeTitle.value, address, [address], 0)), makeActive);
      mutationInProgress := false;
      return Some(newId);
    }

    method ActivateTab(index: int) returns (ok: bool)
      modifies this
      ensures (View(), ok) == Activate(old(View()), index) && |script| <= |old(script)|
      decreases |script|, 4
    {
      if mutationInProgress || !InRange(tabs, index) { return false; }
      if index == activeIndex { return true; }
      mutationInProgress := true;
      var oldActive := activeIndex;
      activeIndex := index;
      Emit(ActiveTabChanged(oldActive, activeIndex));
      Emit(PersistenceNeeded);
      mutationInProgress := false;
      assert signals == old(signals) + [ActiveTabChanged(oldActive, index), PersistenceNeeded];
      return true;
    }

    method MoveTab(from: int, to: int) returns (ok: bool)
      modifies this
      ensures (View(), ok) == Move(old(View()), from, to) && |script| <= |old(script)|
      decreases |script|, 4
    {
      if mutationInProgress || !InRange(tabs, from) || !InRange(tabs, to) { return false; }
      if from == to { return true; }
      mutationInProgress := true;
      var oldActive, selectedId := activeIndex, ActiveId(View());
      tabs := Moved(tabs, from, to);
      activeIndex := IndexOfId(tabs, selectedId);
      EmitChanges(TabMoved(from, to), oldActive, activeIndex != oldActive);
      mutationInProgress := false;
      return true;
    }

    method RememberClosed(closed: Snapshot)
      modifies this`recentlyClosed
      ensures recentlyClosed == Newest(old(recentlyClosed) + [closed], MaxRecentlyClosed)
    {
      recentlyClosed := recentlyClosed + [closed];
      while |recentlyClosed| > MaxRecentlyClosed
        invariant Newest(recentlyClosed, MaxRecentlyClosed) == Newest(old(recentlyClosed) + [closed], MaxRecentlyClosed)
      {
        recentlyClosed := recentlyClosed[1..];
      }
    }

    method CloseTab(index: int) returns (ok: bool)
      modifies this
      ensures (View(), ok) == Close(old(View()), index) && |script| <= |old(script)|
      decreases |script|, 4
    {
      if mutationInProgress || !InRange(tabs, index) { return false; }
      mutationInProgress := true;
      var oldActive, oldActiveId, closed := activeIndex, ActiveId(View()), tabs[index].snapshot;
      RememberClosed(closed);
      tabs := Removed(tabs, index);
      if tabs == [] {
        activeIndex := -1;
      } else if index == oldActive {
        activeIndex := if index < |tabs| - 1 then index else |tabs| - 1;
      } else {
        activeIndex := IndexOfId(tabs, oldActiveId);
      }
      EmitChanges(TabRemoved(index, closed.id), oldActive, oldActive != activeIndex || oldActiveId != ActiveId(View()));
      mutationInProgress := false;
      return true;
    }

    method ReopenMostRecentlyClosed(makeActive: bool, draws: seq<Text>) returns (id: Option<Text>)
      requires !mutationInProgress ==> exists id <- draws :: id !in AllIds(View())
      modifies this
      ensures old(mutationInProgress) ==> View() == old(View()) && id == None
      ensures !old(mutationInProgress) ==>
                (View(), id) == Reopen(old(View()), makeActive, FirstUnused(draws, AllIds(old(View()))))
      ensures |script| <= |old(script)|
      decreases |script|, 4
    {
      if mutationInProgress { return None; }
      if recentlyClosed == [] || |tabs| >= MaxOpenTabs { return None; }
      var newId := GenerateId(draws);
      mutationInProgress := true;
      var last := |recentlyClosed| - 1;
      var snapshot := recentlyClosed[last].(id := newId);
      recentlyClosed := recentlyClosed[..last];
      AppendTab(DormantTab(snapshot), makeActive);
      mutationInProgress := false;
      return Some(newId);
    }

    /** A changed tab takes its place. */
    method ReplaceTab(index: int, tab: Tab)
      requires InRange(tabs, index) && !mutationInProgress
      modifies this
      ensures View() == Changed(old(View()), index, tab) && |script| <= |old(script)|
      decreases |script|, 3
    {
      mutationInProgress := true;
      tabs := tabs[index := tab];
      Emit(TabChanged(index));
      Emit(PersistenceNeeded);
      mutationInProgress := false;
    }

    /** The entries after the current one go, and the oldest when there are too many. */
    method AppendVisit(s: Snapshot, address: Text) returns (history: seq<Text>)
      ensures history == Visited(s, address).history
    {
      history := s.history;
      while |history| > s.historyIndex + 1 && history != []
        invariant Upto(history, s.historyIndex + 1) == Upto(s.history, s.historyIndex + 1)
      {
        history := history[..|history| - 1];
      }
      history := history + [address];
      while |history| > MaxHistoryEntries
        invariant history != []
        invariant Newest(history, MaxHistoryEntries) == Visited(s, address).history
      {
        history := history[1..];
      }
    }

    method NavigateTab(id: Text, kind: Kind, address: Text) returns (ok: bool)
      modifies this
      ensures (View(), ok) == Navigate(old(View()), id, kind, address) && |script| <= |old(script)|
      decreases |script|, 4
    {
      var index := IndexOfId(tabs, id);
      if mutationInProgress || index < 0 || address == [] { return false; }
      var tab := tabs[index];
      var s := tab.snapshot;
      if ShowsEntry(s) && s.history[s.historyIndex] == address {
        if s.kind == kind { return true; }
        ReplaceTab(index, WithKind(tab, kind));
        return true;
      }
      var history := AppendVisit(s, address);
      var visited := s.(history := history, historyIndex := |history| - 1, address := address);
      ReplaceTab(index, WithKind(tab.(snapshot := visited), kind));
      return true;
    }

    method GoBack(id: Text, kind: Kind) returns (ok: bool)
      modifies this
      ensures (View(), ok) == Step(old(View()), id, kind, -1) && |script| <= |old(script)|
      decreases |script|, 4
    {
      var index := IndexOfId(tabs, id);
      if mutationInProgress || index < 0 || !InRange(tabs[index].snapshot.history, tabs[index].snapshot.historyIndex - 1) {
        return false;
      }
      var s := tabs[index].snapshot;
      var to := s.historyIndex - 1;
      ReplaceTab(index, WithKind(tabs[index].(snapshot := s.(historyIndex := to, address := s.history[to])), kind));
      return true;
    }

    method GoForward(id: Text, kind: Kind) returns (ok: bool)
      modifies this
      ensures (View(), ok) == Step(old(View()), id, kind, 1) && |script| <= |old(script)|
      decreases |script|, 4
    {
      var index := IndexOfId(tabs, id);
      if mutationInProgress || index < 0 || !InRange(tabs[index].snapshot.history, tabs[index].snapshot.historyIndex + 1) {
        return false;
      }
      var s := tabs[index].snapshot;
      var to := s.historyIndex + 1;
      ReplaceTab(index, WithKind(tabs[index].(snapshot := s.(historyIndex := to, address := s.history[to])), kind));
      return true;
    }

    method SetTabTitle(id: Text, title: Text) returns (ok: bool)
      modifies this
      ensures (View(), ok) == SetTitle(old(View()), id, title) && |script| <= |old(script)|
      decreases |script|, 4
    {
      var index := IndexOfId(tabs, id);
      if mutationInProgress || index < 0 { return false; }
      var safeTitle := T.Sanitise(title, false);
      if safeTitle.None? { return false; }
      if tabs[index].snapshot.title == safeTitle.value { return true; }
      ReplaceTab(index, tabs[index].(snapshot := tabs[index].snapshot.(title := safeTitle.value)));
      return true;
    }

    /** A tab's state is shown differently; this is not worth saving. */
    method ShowTab(index: int, presentation: Presentation)
      requires InRange(tabs, index) && !mutationInProgress
      modifies this
      ensures View() == Emitted(old(View()).(tabs := old(tabs)[index := old(tabs)[index].(presentation := presentation)]),
                                [TabChanged(index)])
      ensures |script| <= |old(script)|
      decreases |script|, 3
    {
      mutationInProgress := true;
      tabs := tabs[index := tabs[index].(presentation := presentation)];
      Emit(TabChanged(index));
      mutationInProgress := false;
    }

    method SetTabLifecycle(id: Text, lifecycle: Lifecycle) returns (ok: bool)
      modifies this
      ensures (View(), ok) == SetLifecycle(old(View()), id, lifecycle) && |script| <= |old(script)|
      decreases |script|, 4
    {
      var index := IndexOfId(tabs, id);
      if mutationInProgress || index < 0 { return false; }
      if tabs[index].presentation.lifecycle == lifecycle { return true; }
      ShowTab(index, tabs[index].presentation.(lifecycle := lifecycle));
      return true;
    }

    method SetTabLoadState(id: Text, loading: bool, progress: int) returns (ok: bool)
      modifies this
      ensures (View(), ok) == SetLoadState(old(View()), id, loading, progress) && |script| <= |old(script)|
      decreases |script|, 4
    {
      var index := IndexOfId(tabs, id);
      if mutationInProgress || index < 0 { return false; }
      var bounded := Clamped(progress);
      if tabs[index].presentation.loading == loading && tabs[index].presentation.progress == bounded { return true; }
      ShowTab(index, tabs[index].presentation.(loading := loading, progress := bounded));
      return true;
    }

    method SetTabVisualState(id: Text, visual: VisualState) returns (ok: bool)
      modifies this
      ensures (View(), ok) == SetVisualState(old(View()), id, visual) && |script| <= |old(script)|
      decreases |script|, 4
    {
      var index := IndexOfId(tabs, id);
      if mutationInProgress || index < 0 { return false; }
      if tabs[index].presentation.visual == visual { return true; }
      ShowTab(index, tabs[index].presentation.(visual := visual));
      return true;
    }

    method CheckRestorable(snapshots: seq<Snapshot>, active: int) returns (ok: bool)
      ensures ok <==> Restorable(snapshots, active)
    {
      if |snapshots| > MaxOpenTabs || !ActiveFits(|snapshots|, active) { return false; }
      var ids: set<Text>, i := {}, 0;
      while i < |snapshots|
        invariant 0 <= i <= |snapshots|
        invariant ids == set k | 0 <= k < i :: snapshots[k].id
        invariant forall k :: 0 <= k < i ==> ValidSnapshot(snapshots[k])
        invariant forall j, k :: 0 <= j < k < i ==> snapshots[j].id != snapshots[k].id
      {
        if !ValidSnapshot(snapshots[i]) || snapshots[i].id in ids {
          if snapshots[i].id in ids {
            var k :| 0 <= k < i && snapshots[k].id == snapshots[i].id;
            assert ClosedIds(snapshots)[k] == ClosedIds(snapshots)[i];
          }
          return false;
        }
        ids := ids + {snapshots[i].id};
        i := i + 1;
      }
      return true;
    }

    method RemoveEveryTab()
      requires mutationInProgress
      modifies this
      ensures View() == Emitted(old(View()).(tabs := []), RemovalLog(Ids(old(tabs)))) && |script| <= |old(script)|
      decreases |script|, 3, 0
    {
      var ids := Ids(tabs);
      var index := |tabs| - 1;
      assert ids[..index + 1] == ids && tabs[..index + 1] == tabs;
      while index >= 0
        invariant -1 <= index < |ids| && tabs == old(tabs)[..index + 1] && |script| <= |old(script)|
        invariant View() == old(View()).(tabs := tabs, signals := signals)
        invariant signals + RemovalLog(ids[..index + 1]) == old(signals) + RemovalLog(ids)
      {
        ghost var before := signals;
        tabs := tabs[..index];
        Emit(TabRemoved(index, ids[index]));
        assert ids[..index + 1][..index] == ids[..index];
        assert before + RemovalLog(ids[..index + 1]) == before + [TabRemoved(index, ids[index])] + RemovalLog(ids[..index]);
        index := index - 1;
      }
    }

    method InsertEveryTab(restored: seq<Tab>)
      requires mutationInProgress && tabs == []
      modifies this
      ensures View() == Emitted(old(View()).(tabs := restored), InsertionLog(Ids(restored))) && |script| <= |old(script)|
      decreases |script|, 3, 0
    {
      var ids := Ids(restored);
      var index := 0;
      while index < |restored|
        invariant 0 <= index <= |restored| && tabs == restored[..index] && |script| <= |old(script)|
        invariant View() == old(View()).(tabs := tabs, signals := signals)
        invariant signals == old(signals) + InsertionLog(ids[..index])
      {
        tabs := tabs + [restored[index]];
        Emit(TabInserted(index, ids[index]));
        assert ids[..index + 1][..index] == ids[..index];
        index := index + 1;
      }
      assert ids[..index] == ids;
    }

    method SwapTabs(snapshots: seq<Snapshot>)
      requires mutationInProgress
      modifies this
      ensures View() == Emitted(old(View()).(tabs := DormantTabs(snapshots), closed := [], active := -1),
                                RemovalLog(Ids(old(tabs))) + InsertionLog(ClosedIds(snapshots)))
      ensures |script| <= |old(script)|
      decreases |script|, 3, 1
    {
      hide RemovalLog, InsertionLog;
      recentlyClosed := [];
      activeIndex := -1;
      RemoveEveryTab();
      InsertEveryTab(DormantTabs(snapshots));
      assert Ids(DormantTabs(snapshots)) == ClosedIds(snapshots);
      Joined(old(signals), RemovalLog(Ids(old(tabs))), InsertionLog(ClosedIds(snapshots)));
    }

    lemma Joined(a: seq<Signal>, b: seq<Signal>, c: seq<Signal>)
      ensures a + b + c == a + (b + c)
    {}

    method ReplaceFromValidatedSnapshot(snapshots: seq<Snapshot>, active: int) returns (ok: bool)
      modifies this
      ensures (View(), ok) == Replace(old(View()), snapshots, active) && |script| <= |old(script)|
      decreases |script|, 4
    {
      if mutationInProgress { return false; }
      var restorable := CheckRestorable(snapshots, active);
      if !restorable { return false; }
      if activeIndex == active && recentlyClosed == [] && tabs == DormantTabs(snapshots) { return true; }
      mutationInProgress := true;
      var oldActive, wasEmpty := activeIndex, snapshots == [];
      SwapTabs(snapshots);
      activeIndex := active;
      assert signals + [] == signals;
      if !wasEmpty || oldActive != -1 { Emit(ActiveTabChanged(oldActive, activeIndex)); }
      Joined(old(signals), RemovalLog(Ids(old(tabs))) + InsertionLog(ClosedIds(snapshots)),
             if !wasEmpty || oldActive != -1 then [ActiveTabChanged(oldActive, active)] else []);
      mutationInProgress := false;
      return true;
    }
  }
}
