/** Saving the tab model and restoring it from the bytes. */
module SessionRestore {
  import opened Common
  import opened Utf16
  import opened Utf8
  import opened Titles
  import opened TabModel
  import opened TabTheorems
  import opened Json
  import opened SessionStore
  import opened TabEffects

  /** Where the active tab of a loaded window is; -1 if there is none. */
  function ActiveIndex(tabs: seq<Snapshot>, id: Text): (index: int)
    ensures -1 <= index < |tabs|
    ensures index >= 0 ==> tabs[index].id == id && forall j :: 0 <= j < index ==> tabs[j].id != id
    ensures index < 0 ==> forall j :: 0 <= j < |tabs| ==> tabs[j].id != id
  {
    if tabs == [] then -1
    else if tabs[0].id == id then 0
    else
      var rest := ActiveIndex(tabs[1..], id);
      assert forall j :: 1 <= j < |tabs| ==> tabs[j] == tabs[1..][j - 1];
      if rest < 0 then -1 else rest + 1
  }

  predicate AllAddresses(tabs: seq<Snapshot>, valid: Text -> bool) {
    forall tab <- tabs :: forall entry <- tab.history :: valid(entry)
  }

  predicate Sized(w: Window) {
    -1_000_000 <= w.x <= 1_000_000 && -1_000_000 <= w.y <= 1_000_000 && 320 <= w.width <= 32_768 && 320 <= w.height <= 32_768
  }

  lemma TabFitsExactly(tab: Snapshot, valid: Text -> bool)
    requires Proper(valid)
    ensures TabFits(tab, valid, true) <==> ValidSnapshot(tab) && forall entry <- tab.history :: valid(entry)
  {
    hide IsValidId;
    if ValidSnapshot(tab) && forall entry <- tab.history :: valid(entry) {
      assert tab.history[tab.historyIndex] in tab.history;
    }
  }

  /**
   The windows that can be loaded are exactly those whose size fits, whose addresses are
   valid, and whose tabs the tab model restores with their active one.
   */
  lemma LoadableIsRestorable(w: Window, valid: Text -> bool)
    requires Proper(valid)
    ensures ValidWindow(w, valid) <==>
      && Sized(w) && AllAddresses(w.tabs, valid) && w.tabs != []
      && ActiveIndex(w.tabs, w.activeTabId) >= 0 && Restorable(w.tabs, ActiveIndex(w.tabs, w.activeTabId))
  {
    hide TabFits, ValidSnapshot, Distinct;
    forall tab <- w.tabs
      ensures TabFits(tab, valid, true) <==> ValidSnapshot(tab) && forall entry <- tab.history :: valid(entry)
    {
      TabFitsExactly(tab, valid);
    }
    var i := ActiveIndex(w.tabs, w.activeTabId);
    if i >= 0 {
      assert w.tabs[i] in w.tabs;
      if ValidSnapshot(w.tabs[i]) { ValidSnapshotId(w.tabs[i]); }
    }
  }

  lemma ValidSnapshotId(s: Snapshot)
    requires ValidSnapshot(s)
    ensures IsValidId(s.id)
  {}

  /** The window that shows a tab model. */
  function WindowOfModel(m: Model, x: int, y: int, width: int, height: int): Window {
    Window(x, y, width, height, ActiveId(m), Snapshots(m.tabs))
  }

  /**
   What was saved of a tab model is what is restored: the bytes of its window are loaded,
   and an empty model takes over the same snapshots in the same order with the same
   active tab, all of them dormant.
   */
  lemma RestoredIsWhatWasSaved(m: Model, x: int, y: int, width: int, height: int, valid: Text -> bool)
    requires Valid(m) && m.tabs != [] && Proper(valid)
    requires Sized(WindowOfModel(m, x, y, width, height)) && AllAddresses(Snapshots(m.tabs), valid)
    ensures var w := WindowOfModel(m, x, y, width, height);
      && Paired(DocumentText(w)) && Parse(Serialize(w), valid) == Some(w)
      && var (restored, ok) := Replace(EmptyModel, w.tabs, ActiveIndex(w.tabs, w.activeTabId));
         && ok && Valid(restored) && Snapshots(restored.tabs) == Snapshots(m.tabs) && restored.active == m.active
         && forall tab <- restored.tabs :: Asleep(tab)
  {
    var w := WindowOfModel(m, x, y, width, height);
    ModelIsRestorable(m);
    hide ValidWindow, Restorable, Parse, Serialize, Normalized, DocumentText, AllAddresses, Sized, Valid, Replace;
    LoadableIsRestorable(w, valid);
    NormalizedIsValid(w, valid, false);
    LoadUndoesSave(w, valid);
    RestoresThem(m);
  }

  lemma RestoresThem(m: Model)
    requires Restorable(Snapshots(m.tabs), m.active)
    ensures var (restored, ok) := Replace(EmptyModel, Snapshots(m.tabs), m.active);
      && ok && Valid(restored) && Snapshots(restored.tabs) == Snapshots(m.tabs) && restored.active == m.active
      && forall tab <- restored.tabs :: Asleep(tab)
  {
    hide Valid, Replace, Restorable;
    EmptyIsValid();
    ReplaceKeeps(EmptyModel, Snapshots(m.tabs), m.active);
  }

  lemma EmptyIsValid()
    ensures Valid(EmptyModel)
  {}

  lemma ModelIsRestorable(m: Model)
    requires Valid(m) && m.tabs != []
    ensures ActiveIndex(Snapshots(m.tabs), ActiveId(m)) == m.active && Restorable(Snapshots(m.tabs), m.active)
  {
    var tabs := Snapshots(m.tabs);
    assert ClosedIds(tabs) == Ids(m.tabs);
    DistinctParts(m);
    forall s <- tabs ensures ValidSnapshot(s) {
      var k :| 0 <= k < |tabs| && tabs[k] == s;
      assert m.tabs[k] in m.tabs;
    }
    var i := ActiveIndex(tabs, ActiveId(m));
    assert tabs[m.active].id == ActiveId(m);
    assert forall k :: 0 <= k < |tabs| && k != m.active ==> Ids(m.tabs)[k] != Ids(m.tabs)[m.active];
  }
}
