/**
 The tab model: open tabs, the active one, and the tabs closed most recently.  Each
 function gives one mutator's effect on the state, the signals it emits included.
 */
module TabModel {
  import opened Common
  import opened Utf16
  import opened Titles

  const MaxOpenTabs: nat := 16
  const MaxRecentlyClosed: nat := 16
  const MaxHistoryEntries: nat := 256

  datatype Kind = Host | App | Web | TrustedError

  datatype Lifecycle = Dormant | Starting | Loading | Active | Background | Errored | Closing | Retired

  datatype VisualState = Normal | Recovering | Crashed | ErrorPage

  datatype Snapshot = Snapshot(id: Text, kind: Kind, title: Text, address: Text, history: seq<Text>, historyIndex: int)

  datatype Presentation = Presentation(lifecycle: Lifecycle, loading: bool, progress: int, visual: VisualState)

  datatype Tab = Tab(snapshot: Snapshot, presentation: Presentation)

  datatype Signal =
    | TabInserted(index: int, id: Text)
    | TabRemoved(index: int, id: Text)
    | TabMoved(from: int, to: int)
    | TabChanged(index: int)
    | ActiveTabChanged(before: int, after: int)
    | PersistenceNeeded

  /** `busy` is set while a mutator runs and its observers are called. */
  datatype Model = Model(tabs: seq<Tab>, closed: seq<Snapshot>, active: int, busy: bool, signals: seq<Signal>)

  const EmptyModel := Model([], [], -1, false, [])

  function DefaultPresentation(kind: Kind): Presentation {
    Presentation(Dormant, false, 0, if kind == TrustedError then ErrorPage else Normal)
  }

  function DormantTab(s: Snapshot): Tab {
    Tab(s, DefaultPresentation(s.kind))
  }

  function Ids(tabs: seq<Tab>): (ids: seq<Text>)
    ensures |ids| == |tabs| && forall i :: 0 <= i < |tabs| ==> ids[i] == tabs[i].snapshot.id
  {
    seq(|tabs|, i requires 0 <= i < |tabs| => tabs[i].snapshot.id)
  }

  function ClosedIds(closed: seq<Snapshot>): (ids: seq<Text>)
    ensures |ids| == |closed| && forall i :: 0 <= i < |closed| ==> ids[i] == closed[i].id
  {
    seq(|closed|, i requires 0 <= i < |closed| => closed[i].id)
  }

  /** Every id the model knows, open or recently closed. */
  function AllIds(m: Model): seq<Text> {
    Ids(m.tabs) + ClosedIds(m.closed)
  }

  predicate InRange<T>(s: seq<T>, i: int) { 0 <= i < |s| }

  function Removed<T>(s: seq<T>, i: int): seq<T>
    requires InRange(s, i)
  {
    s[..i] + s[i + 1..]
  }

  function Inserted<T>(s: seq<T>, i: int, x: T): seq<T>
    requires 0 <= i <= |s|
  {
    s[..i] + [x] + s[i..]
  }

  /** The element at `from` ends at `to`, the others keep their order. */
  function Moved<T>(s: seq<T>, from: int, to: int): seq<T>
    requires InRange(s, from) && InRange(s, to)
  {
    Inserted(Removed(s, from), to, s[from])
  }

  function IndexOfId(tabs: seq<Tab>, id: Text): (index: int)
    ensures -1 <= index < |tabs|
    ensures index >= 0 ==> tabs[index].snapshot.id == id && forall j :: 0 <= j < index ==> tabs[j].snapshot.id != id
    ensures index < 0 ==> forall j :: 0 <= j < |tabs| ==> tabs[j].snapshot.id != id
  {
    if tabs == [] then -1
    else if tabs[0].snapshot.id == id then 0
    else
      var rest := IndexOfId(tabs[1..], id);
      assert forall j :: 1 <= j < |tabs| ==> tabs[j] == tabs[1..][j - 1];
      if rest < 0 then -1 else rest + 1
  }

  /** The active tab's id, or the empty text that no tab has. */
  function ActiveId(m: Model): Text {
    if InRange(m.tabs, m.active) then m.tabs[m.active].snapshot.id else []
  }

  function Emitted(m: Model, signals: seq<Signal>): Model {
    m.(signals := m.signals + signals)
  }

  function ActiveChange(before: int, after: int): seq<Signal> {
    if before == after then [] else [ActiveTabChanged(before, after)]
  }

  /** The tab goes to the end; it becomes active if that is asked or nothing else is. */
  function Appended(m: Model, tab: Tab, makeActive: bool): Model {
    var index := |m.tabs|;
    var active := if makeActive || m.active < 0 then index else m.active;
    Emitted(m.(tabs := m.tabs + [tab], active := active),
            [TabInserted(index, tab.snapshot.id)] + ActiveChange(m.active, active) + [PersistenceNeeded])
  }

  /** `id` is a fresh identifier. */
  function Create(m: Model, kind: Kind, title: Text, address: Text, makeActive: bool, id: Text): (Model, Option<Text>) {
    var safeTitle := CanonicalTitle(title);
    if m.busy || |m.tabs| >= MaxOpenTabs || address == [] || safeTitle.None? then (m, None)
    else (Appended(m, DormantTab(Snapshot(id, kind, safeTitle.value, address, [address], 0)), makeActive), Some(id))
  }

  function Activate(m: Model, index: int): (Model, bool) {
    if m.busy || !InRange(m.tabs, index) then (m, false)
    else if index == m.active then (m, true)
    else (Emitted(m.(active := index), [ActiveTabChanged(m.active, index), PersistenceNeeded]), true)
  }

  function Move(m: Model, from: int, to: int): (Model, bool) {
    if m.busy || !InRange(m.tabs, from) || !InRange(m.tabs, to) then (m, false)
    else if from == to then (m, true)
    else
      var tabs := Moved(m.tabs, from, to);
      var active := IndexOfId(tabs, ActiveId(m));
      (Emitted(m.(tabs := tabs, active := active),
               [TabMoved(from, to)] + ActiveChange(m.active, active) + [PersistenceNeeded]), true)
  }

  function Newest<T>(s: seq<T>, limit: nat): seq<T> {
    if |s| <= limit then s else s[|s| - limit..]
  }

  function Close(m: Model, index: int): (Model, bool) {
    if m.busy || !InRange(m.tabs, index) then (m, false)
    else
      var closed := m.tabs[index].snapshot;
      var tabs := Removed(m.tabs, index);
      var active := if tabs == [] then -1
                    else if index == m.active then if index < |tabs| then index else |tabs| - 1
                    else IndexOfId(tabs, ActiveId(m));
      var next := m.(tabs := tabs, closed := Newest(m.closed + [closed], MaxRecentlyClosed), active := active);
      var change := if m.active != active || ActiveId(m) != ActiveId(next) then [ActiveTabChanged(m.active, active)] else [];
      (Emitted(next, [TabRemoved(index, closed.id)] + change + [PersistenceNeeded]), true)
  }

  function Reopen(m: Model, makeActive: bool, id: Text): (Model, Option<Text>) {
    if m.busy || m.closed == [] || |m.tabs| >= MaxOpenTabs then (m, None)
    else
      var last := |m.closed| - 1;
      (Appended(m.(closed := m.closed[..last]), DormantTab(m.closed[last].(id := id)), makeActive), Some(id))
  }

  function WithKind(tab: Tab, kind: Kind): Tab {
    if tab.snapshot.kind == kind then tab
    else Tab(tab.snapshot.(kind := kind), DefaultPresentation(kind))
  }

  function Changed(m: Model, index: int, tab: Tab): Model
    requires InRange(m.tabs, index)
  {
    Emitted(m.(tabs := m.tabs[index := tab]), [TabChanged(index), PersistenceNeeded])
  }

  function Upto<T>(s: seq<T>, n: int): seq<T> {
    if n <= 0 then [] else if n >= |s| then s else s[..n]
  }

  function Visited(s: Snapshot, address: Text): Snapshot {
    var history := Newest(Upto(s.history, s.historyIndex + 1) + [address], MaxHistoryEntries);
    s.(history := history, historyIndex := |history| - 1, address := address)
  }

  predicate ShowsEntry(s: Snapshot) { InRange(s.history, s.historyIndex) }

  function Navigate(m: Model, id: Text, kind: Kind, address: Text): (Model, bool) {
    var index := IndexOfId(m.tabs, id);
    if m.busy || index < 0 || address == [] then (m, false)
    else
      var tab := m.tabs[index];
      if ShowsEntry(tab.snapshot) && tab.snapshot.history[tab.snapshot.historyIndex] == address then
        (if tab.snapshot.kind == kind then m else Changed(m, index, WithKind(tab, kind)), true)
      else (Changed(m, index, WithKind(tab.(snapshot := Visited(tab.snapshot, address)), kind)), true)
  }

  /** Back is a step of -1, forward of 1. */
  function Step(m: Model, id: Text, kind: Kind, step: int): (Model, bool) {
    var index := IndexOfId(m.tabs, id);
    if m.busy || index < 0
       || !InRange(m.tabs[index].snapshot.history, m.tabs[index].snapshot.historyIndex + step) then (m, false)
    else
      var tab := m.tabs[index];
      var to := tab.snapshot.historyIndex + step;
      var snapshot := tab.snapshot.(historyIndex := to, address := tab.snapshot.history[to]);
      (Changed(m, index, WithKind(tab.(snapshot := snapshot), kind)), true)
  }

  function SetTitle(m: Model, id: Text, title: Text): (Model, bool) {
    var index, safeTitle := IndexOfId(m.tabs, id), CanonicalTitle(title);
    if m.busy || index < 0 || safeTitle.None? then (m, false)
    else if m.tabs[index].snapshot.title == safeTitle.value then (m, true)
    else
      var tab := m.tabs[index];
      (Changed(m, index, tab.(snapshot := tab.snapshot.(title := safeTitle.value))), true)
  }

  function PresentationOf(m: Model, id: Text): Presentation {
    var index := IndexOfId(m.tabs, id);
    if index < 0 then DefaultPresentation(Host) else m.tabs[index].presentation
  }

  /** What the three setters below have in common. */
  function SetPresentation(m: Model, id: Text, presentation: Presentation): (Model, bool) {
    var index := IndexOfId(m.tabs, id);
    if m.busy || index < 0 then (m, false)
    else if m.tabs[index].presentation == presentation then (m, true)
    else (Emitted(m.(tabs := m.tabs[index := m.tabs[index].(presentation := presentation)]), [TabChanged(index)]), true)
  }

  function SetLifecycle(m: Model, id: Text, lifecycle: Lifecycle): (Model, bool) {
    SetPresentation(m, id, PresentationOf(m, id).(lifecycle := lifecycle))
  }

  function Clamped(progress: int): int {
    if progress < 0 then 0 else if progress > 100 then 100 else progress
  }

  function SetLoadState(m: Model, id: Text, loading: bool, progress: int): (Model, bool) {
    SetPresentation(m, id, PresentationOf(m, id).(loading := loading, progress := Clamped(progress)))
  }

  function SetVisualState(m: Model, id: Text, visual: VisualState): (Model, bool) {
    SetPresentation(m, id, PresentationOf(m, id).(visual := visual))
  }

  predicate IsHexDigit(u: CodeUnit) { 0x30 <= u <= 0x39 || 0x61 <= u <= 0x66 }

  predicate IsValidId(id: Text) {
    |id| == 32 && forall u <- id :: IsHexDigit(u)
  }

  predicate ValidHistory(s: Snapshot) {
    && 1 <= |s.history| <= MaxHistoryEntries && ShowsEntry(s) && s.history[s.historyIndex] == s.address
    && forall entry <- s.history :: entry != []
  }

  predicate ValidSnapshot(s: Snapshot) {
    IsValidId(s.id) && ValidHistory(s) && CanonicalTitle(s.title) == Some(s.title)
  }

  predicate Distinct(ids: seq<Text>) {
    forall i, j :: 0 <= i < j < |ids| ==> ids[i] != ids[j]
  }

  predicate ActiveFits(count: nat, active: int) {
    if count == 0 then active == -1 else 0 <= active < count
  }

  function DormantTabs(snapshots: seq<Snapshot>): (tabs: seq<Tab>)
    ensures |tabs| == |snapshots| && forall i :: 0 <= i < |tabs| ==> tabs[i] == DormantTab(snapshots[i])
  {
    seq(|snapshots|, i requires 0 <= i < |snapshots| => DormantTab(snapshots[i]))
  }

  /** Tabs are removed from the last to the first. */
  function RemovalLog(ids: seq<Text>): seq<Signal> {
    if ids == [] then []
    else
      var last := |ids| - 1;
      [TabRemoved(last, ids[last])] + RemovalLog(ids[..last])
  }

  function InsertionLog(ids: seq<Text>): seq<Signal> {
    if ids == [] then []
    else
      var last := |ids| - 1;
      InsertionLog(ids[..last]) + [TabInserted(last, ids[last])]
  }

  predicate Restorable(snapshots: seq<Snapshot>, active: int) {
    && |snapshots| <= MaxOpenTabs && ActiveFits(|snapshots|, active)
    && (forall s <- snapshots :: ValidSnapshot(s)) && Distinct(ClosedIds(snapshots))
  }

  function Replace(m: Model, snapshots: seq<Snapshot>, active: int): (Model, bool) {
    if m.busy || !Restorable(snapshots, active) then (m, false)
    else if m.active == active && m.closed == [] && m.tabs == DormantTabs(snapshots) then (m, true)
    else
      var change := if snapshots != [] || m.active != -1 then [ActiveTabChanged(m.active, active)] else [];
      (Emitted(m.(tabs := DormantTabs(snapshots), closed := [], active := active),
               RemovalLog(Ids(m.tabs)) + InsertionLog(ClosedIds(snapshots)) + change), true)
  }

  // ---- The invariant ---------------------------------------------------------------------

  predicate ValidTab(tab: Tab) {
    ValidSnapshot(tab.snapshot) && 0 <= tab.presentation.progress <= 100
  }

  predicate Valid(m: Model) {
    && !m.busy && |m.tabs| <= MaxOpenTabs && |m.closed| <= MaxRecentlyClosed
    && ActiveFits(|m.tabs|, m.active)
    && Distinct(AllIds(m))
    && (forall tab <- m.tabs :: ValidTab(tab))
    && (forall s <- m.closed :: ValidSnapshot(s))
  }
}
