/** What every run of the tab model keeps: identity, selection, and signals that tell the whole story. */
module TabTheorems {
  import opened Common
  import opened Utf16
  import opened Titles
  import opened TabModel

  /** What an observer knows that starts with nothing and follows the signals. */
  datatype View = View(ids: seq<Text>, active: int)

  const EmptyView := View([], -1)

  /** One signal; none if it does not fit what the view shows. */
  function Follow(v: View, signal: Signal): Option<View> {
    match signal
    case TabInserted(i, id) => if 0 <= i <= |v.ids| then Some(v.(ids := Inserted(v.ids, i, id))) else None
    case TabRemoved(i, id) => if InRange(v.ids, i) && v.ids[i] == id then Some(v.(ids := Removed(v.ids, i))) else None
    case TabMoved(from, to) =>
      if InRange(v.ids, from) && InRange(v.ids, to) then Some(v.(ids := Moved(v.ids, from, to))) else None
    case ActiveTabChanged(before, after) => if v.active == before then Some(v.(active := after)) else None
    case _ => Some(v)
  }

  function FollowAll(v: View, signals: seq<Signal>): Option<View>
    decreases signals
  {
    if signals == [] then Some(v)
    else
      var next := Follow(v, signals[0]);
      if next.None? then None else FollowAll(next.value, signals[1..])
  }

  function Shown(m: Model): View {
    View(Ids(m.tabs), m.active)
  }

  /** The signals emitted on the way from the one state to the other tell the difference between them. */
  predicate Tells(before: Model, after: Model) {
    && before.signals <= after.signals
    && FollowAll(Shown(before), after.signals[|before.signals|..]) == Some(Shown(after))
  }

  lemma {:induction false} FollowAppend(v: View, s: seq<Signal>, t: seq<Signal>)
    ensures FollowAll(v, s).None? ==> FollowAll(v, s + t).None?
    ensures FollowAll(v, s).Some? ==> FollowAll(v, s + t) == FollowAll(FollowAll(v, s).value, t)
    decreases s
  {
    if s == [] {
      assert s + t == t;
    } else {
      assert (s + t)[0] == s[0] && (s + t)[1..] == s[1..] + t;
      var next := Follow(v, s[0]);
      if next.Some? { FollowAppend(next.value, s[1..], t); }
    }
  }

  lemma FollowOne(v: View, a: Signal)
    ensures FollowAll(v, [a]) == Follow(v, a)
  {
    assert [a][1..] == [];
  }

  /** A structural signal, then perhaps a change of selection, then perhaps a request to save. */
  lemma FollowParts(v: View, a: Signal, change: seq<Signal>, tail: seq<Signal>)
    requires Follow(v, a).Some? && tail in {[], [PersistenceNeeded]}
    requires change == [] || (|change| == 1 && change[0].ActiveTabChanged? && change[0].before == Follow(v, a).value.active)
    ensures FollowAll(v, [a] + change + tail)
         == Some(if change == [] then Follow(v, a).value else Follow(v, a).value.(active := change[0].after))
  {
    var w := Follow(v, a).value;
    FollowOne(v, a);
    FollowAppend(v, [a], change);
    if change != [] {
      assert change == [change[0]];
      FollowOne(w, change[0]);
    }
    FollowAppend(v, [a] + change, tail);
  }

  lemma TellsParts(before: Model, after: Model, a: Signal, change: seq<Signal>, tail: seq<Signal>)
    requires after.signals == before.signals + ([a] + change + tail)
    requires Follow(Shown(before), a).Some? && tail in {[], [PersistenceNeeded]}
    requires Follow(Shown(before), a).value == View(Ids(after.tabs), before.active)
    requires if change == [] then after.active == before.active else change == [ActiveTabChanged(before.active, after.active)]
    ensures Tells(before, after)
  {
    FollowParts(Shown(before), a, change, tail);
    assert after.signals[|before.signals|..] == [a] + change + tail;
  }

  lemma NothingTells(m: Model)
    ensures Tells(m, m)
  {
    assert m.signals[|m.signals|..] == [];
  }

  lemma {:induction false} TellsOn(a: Model, b: Model, c: Model)
    requires Tells(a, b) && Tells(b, c)
    ensures Tells(a, c)
  {
    FollowAppend(Shown(a), b.signals[|a.signals|..], c.signals[|b.signals|..]);
    assert c.signals[|a.signals|..] == b.signals[|a.signals|..] + c.signals[|b.signals|..];
  }

  // ---- Creating, activating, moving, closing, reopening -------------------------------------

  lemma AppendedTells(m: Model, tab: Tab, makeActive: bool)
    ensures Tells(m, Appended(m, tab, makeActive))
  {
    var after := Appended(m, tab, makeActive);
    assert Inserted(Ids(m.tabs), |m.tabs|, tab.snapshot.id) == Ids(after.tabs);
    TellsParts(m, after, TabInserted(|m.tabs|, tab.snapshot.id), ActiveChange(m.active, after.active), [PersistenceNeeded]);
  }

  lemma AppendedValid(m: Model, tab: Tab, makeActive: bool)
    requires Valid(m) && |m.tabs| < MaxOpenTabs && ValidTab(tab) && tab.snapshot.id !in AllIds(m)
    ensures Valid(Appended(m, tab, makeActive))
  {
    var after := Appended(m, tab, makeActive);
    var n := |m.tabs|;
    forall i, j | 0 <= i < j < |AllIds(after)| ensures AllIds(after)[i] != AllIds(after)[j] {
      assert i < n ==> AllIds(after)[i] == AllIds(m)[i];
      assert i > n ==> AllIds(after)[i] == AllIds(m)[i - 1];
      assert j < n ==> AllIds(after)[j] == AllIds(m)[j];
      assert j > n ==> AllIds(after)[j] == AllIds(m)[j - 1];
    }
  }

  lemma CreateKeeps(m: Model, kind: Kind, title: Text, address: Text, makeActive: bool, id: Text)
    requires Valid(m) && IsValidId(id) && id !in AllIds(m)
    ensures var m' := Create(m, kind, title, address, makeActive, id).0; Valid(m') && Tells(m, m')
  {
    NothingTells(m);
    var safeTitle := CanonicalTitle(title);
    if safeTitle.Some? {
      TitleIsAFullPrefix(title);
      var tab := DormantTab(Snapshot(id, kind, safeTitle.value, address, [address], 0));
      AppendedTells(m, tab, makeActive);
      if |m.tabs| < MaxOpenTabs && address != [] { AppendedValid(m, tab, makeActive); }
    }
  }

  lemma ReopenKeeps(m: Model, makeActive: bool, id: Text)
    requires Valid(m) && IsValidId(id) && id !in AllIds(m)
    ensures var m' := Reopen(m, makeActive, id).0; Valid(m') && Tells(m, m')
  {
    NothingTells(m);
    if m.closed != [] && |m.tabs| < MaxOpenTabs {
      var last := |m.closed| - 1;
      var rest := m.(closed := m.closed[..last]);
      assert ClosedIds(rest.closed) == ClosedIds(m.closed)[..last];
      assert AllIds(rest) == AllIds(m)[..|m.tabs| + last];
      var tab := DormantTab(m.closed[last].(id := id));
      assert ValidSnapshot(m.closed[last]);
      AppendedValid(rest, tab, makeActive);
      AppendedTells(rest, tab, makeActive);
    }
  }

  lemma ActivateKeeps(m: Model, index: int)
    requires Valid(m)
    ensures var m' := Activate(m, index).0; Valid(m') && Tells(m, m') && AllIds(m') == AllIds(m)
  {
    NothingTells(m);
    var m' := Activate(m, index).0;
    if m' != m {
      FollowParts(Shown(m), ActiveTabChanged(m.active, index), [], [PersistenceNeeded]);
      assert [ActiveTabChanged(m.active, index)] + [] + [PersistenceNeeded] == [ActiveTabChanged(m.active, index), PersistenceNeeded];
      assert m'.signals[|m.signals|..] == [ActiveTabChanged(m.active, index), PersistenceNeeded];
    }
  }

  /** Where an element goes when another is moved or removed. */
  lemma MovedAt<T>(s: seq<T>, from: int, to: int, k: int)
    requires InRange(s, from) && InRange(s, to) && InRange(s, k)
    ensures |Moved(s, from, to)| == |s|
    ensures var p := if k == from then to else
                       var q := if k > from then k - 1 else k;
                       if q >= to then q + 1 else q;
      InRange(Moved(s, from, to), p) && Moved(s, from, to)[p] == s[k]
  {}

  lemma RemovedAt<T>(s: seq<T>, i: int, k: int)
    requires InRange(s, i) && InRange(s, k) && k != i
    ensures |Removed(s, i)| == |s| - 1
    ensures var p := if k > i then k - 1 else k; InRange(Removed(s, i), p) && Removed(s, i)[p] == s[k]
  {}

  lemma DistinctMoved(s: seq<Text>, from: int, to: int)
    requires InRange(s, from) && InRange(s, to) && Distinct(s)
    ensures Distinct(Moved(s, from, to))
  {
    var r := Removed(s, from);
    forall i, j | 0 <= i < j < |Moved(s, from, to)| ensures Moved(s, from, to)[i] != Moved(s, from, to)[j] {}
  }

  /** The index of the only tab with that id. */
  lemma IndexIsUnique(tabs: seq<Tab>, k: int)
    requires InRange(tabs, k) && Distinct(Ids(tabs))
    ensures IndexOfId(tabs, tabs[k].snapshot.id) == k
  {
    assert forall i :: InRange(tabs, i) && i != k ==> Ids(tabs)[i] != Ids(tabs)[k];
  }

  /** Moving a tab keeps the active one active. */
  lemma MoveKeeps(m: Model, from: int, to: int)
    requires Valid(m)
    ensures var m' := Move(m, from, to).0; Valid(m') && Tells(m, m') && ActiveId(m') == ActiveId(m)
    ensures forall id :: id in AllIds(Move(m, from, to).0) <==> id in AllIds(m)
  {
    NothingTells(m);
    if InRange(m.tabs, from) && InRange(m.tabs, to) && from != to {
      var m' := Move(m, from, to).0;
      MovedSelection(m, from, to);
      MovedTabs(m.tabs, from, to);
      hide Valid, IndexOfId;
      MovedValid(m, m', from, to);
      TellsParts(m, m', TabMoved(from, to), ActiveChange(m.active, m'.active), [PersistenceNeeded]);
    }
  }

  lemma MovedSelection(m: Model, from: int, to: int)
    requires Valid(m) && InRange(m.tabs, from) && InRange(m.tabs, to) && from != to
    ensures var m' := Move(m, from, to).0;
      InRange(m'.tabs, m'.active) && |m'.tabs| == |m.tabs| && m'.tabs[m'.active] == m.tabs[m.active]
  {
    hide ValidSnapshot;
    var tabs := Moved(m.tabs, from, to);
    DistinctParts(m);
    DistinctMoved(Ids(m.tabs), from, to);
    MovedTabs(m.tabs, from, to);
    MovedAt(m.tabs, from, to, m.active);
    var p :| InRange(tabs, p) && tabs[p] == m.tabs[m.active];
    IndexIsUnique(tabs, p);
  }

  lemma MovedMembers<T>(s: seq<T>, from: int, to: int)
    requires InRange(s, from) && InRange(s, to)
    ensures multiset(Moved(s, from, to)) == multiset(s)
    ensures forall x :: x in Moved(s, from, to) <==> x in s
  {
    var r := Removed(s, from);
    assert s == s[..from] + [s[from]] + s[from + 1..];
    assert r == r[..to] + r[to..];
    assert multiset(r) == multiset(s[..from]) + multiset(s[from + 1..]);
    assert Moved(s, from, to) == r[..to] + [s[from]] + r[to..];
    assert multiset(Moved(s, from, to)) == multiset(r) + multiset{s[from]};
    assert forall x :: x in Moved(s, from, to) <==> x in multiset(Moved(s, from, to));
    assert forall x :: x in s <==> x in multiset(s);
  }

  lemma MovedTabs(tabs: seq<Tab>, from: int, to: int)
    requires InRange(tabs, from) && InRange(tabs, to)
    ensures Ids(Moved(tabs, from, to)) == Moved(Ids(tabs), from, to)
    ensures forall tab <- Moved(tabs, from, to) :: tab in tabs
    ensures forall id :: id in Moved(Ids(tabs), from, to) <==> id in Ids(tabs)
  {
    MovedMembers(tabs, from, to);
    MovedMembers(Ids(tabs), from, to);
    var r := Removed(tabs, from);
    assert Ids(r) == Removed(Ids(tabs), from);
    assert Ids(Inserted(r, to, tabs[from])) == Inserted(Ids(r), to, tabs[from].snapshot.id);
  }

  lemma DistinctSplit(s: seq<Text>, t: seq<Text>)
    requires Distinct(s + t)
    ensures Distinct(s) && Distinct(t) && forall i <- s :: i !in t
  {
    var all := s + t;
    forall i, j | 0 <= i < j < |t| ensures t[i] != t[j] { assert all[|s| + i] != all[|s| + j]; }
    forall i, j | 0 <= i < j < |s| ensures s[i] != s[j] { assert all[i] != all[j]; }
    forall i, j | 0 <= i < |s| && 0 <= j < |t| ensures s[i] != t[j] { assert all[i] != all[|s| + j]; }
  }

  lemma DistinctParts(m: Model)
    requires Distinct(AllIds(m))
    ensures Distinct(Ids(m.tabs)) && Distinct(ClosedIds(m.closed))
    ensures forall id <- Ids(m.tabs) :: id !in ClosedIds(m.closed)
  {
    DistinctSplit(Ids(m.tabs), ClosedIds(m.closed));
  }

  lemma MovedValid(m: Model, m': Model, from: int, to: int)
    requires Valid(m) && InRange(m.tabs, from) && InRange(m.tabs, to) && m'.tabs == Moved(m.tabs, from, to)
    requires m'.closed == m.closed && m'.busy == m.busy && ActiveFits(|m'.tabs|, m'.active)
    ensures Valid(m') && forall id :: id in AllIds(m') <==> id in AllIds(m)
  {
    MovedTabs(m.tabs, from, to);
    DistinctParts(m);
    DistinctMoved(Ids(m.tabs), from, to);
    assert forall id :: id in AllIds(m') <==> id in Ids(m'.tabs) || id in ClosedIds(m.closed);
    assert forall id :: id in AllIds(m) <==> id in Ids(m.tabs) || id in ClosedIds(m.closed);
    DistinctJoin(Ids(m'.tabs), ClosedIds(m.closed));
  }

  lemma DistinctJoin(s: seq<Text>, t: seq<Text>)
    requires Distinct(s) && Distinct(t) && forall i <- s :: i !in t
    ensures Distinct(s + t)
  {
    forall i, j | 0 <= i < j < |s + t| ensures (s + t)[i] != (s + t)[j] {
      if i < |s| <= j { assert s[i] in s && t[j - |s|] in t; }
    }
  }

  /**
   Closing a tab keeps every other id, puts the closed tab on top of those that can
   be reopened, and keeps the active tab unless it is the one closed.
   */
  lemma CloseKeeps(m: Model, index: int)
    requires Valid(m)
    ensures var (m', ok) := Close(m, index);
      && Valid(m') && Tells(m, m') && (ok <==> InRange(m.tabs, index))
      && (ok && index != m.active ==> ActiveId(m') == ActiveId(m))
      && (ok ==> m'.closed != [] && m'.closed[|m'.closed| - 1] == m.tabs[index].snapshot)
      && forall id <- AllIds(m') :: id in AllIds(m)
  {
    NothingTells(m);
    if InRange(m.tabs, index) {
      var m' := Close(m, index).0;
      ClosedValid(m, m', index);
      if index != m.active { ClosedSelection(m, index); }
      RemovedTabs(m.tabs, index);
      var change := if m.active != m'.active || ActiveId(m) != ActiveId(m'.(signals := m.signals))
                    then [ActiveTabChanged(m.active, m'.active)] else [];
      hide Valid, ActiveId, IndexOfId;
      TellsParts(m, m', TabRemoved(index, m.tabs[index].snapshot.id), change, [PersistenceNeeded]);
    }
  }

  lemma ClosedSelection(m: Model, index: int)
    requires Valid(m) && InRange(m.tabs, index) && index != m.active
    ensures ActiveId(Close(m, index).0) == ActiveId(m)
  {
    hide ValidSnapshot;
    var tabs := Removed(m.tabs, index);
    RemovedTabs(m.tabs, index);
    DistinctParts(m);
    RemovedAt(m.tabs, index, m.active);
    var p :| InRange(tabs, p) && tabs[p] == m.tabs[m.active];
    IndexIsUnique(tabs, p);
  }

  lemma RemovedTabs(tabs: seq<Tab>, index: int)
    requires InRange(tabs, index)
    ensures Ids(Removed(tabs, index)) == Removed(Ids(tabs), index)
    ensures forall tab <- Removed(tabs, index) :: tab in tabs
    ensures Distinct(Ids(tabs)) ==> Distinct(Removed(Ids(tabs), index)) && Ids(tabs)[index] !in Removed(Ids(tabs), index)
    ensures forall id <- Removed(Ids(tabs), index) :: id in Ids(tabs)
  {}

  lemma DistinctSuffix(s: seq<Text>, d: nat)
    requires Distinct(s) && d <= |s|
    ensures Distinct(s[d..]) && forall id <- s[d..] :: id in s
  {}

  lemma ClosedValid(m: Model, m': Model, index: int)
    requires Valid(m) && InRange(m.tabs, index) && m'.tabs == Removed(m.tabs, index) && !m'.busy
    requires m'.closed == Newest(m.closed + [m.tabs[index].snapshot], MaxRecentlyClosed)
    requires m'.active == Close(m, index).0.active
    ensures Valid(m') && forall id <- AllIds(m') :: id in AllIds(m)
  {
    ActiveAfterClose(m, index);
    ClosedDistinct(m, m', index);
    RemovedTabs(m.tabs, index);
    assert forall tab <- m'.tabs :: tab in m.tabs;
    assert forall s <- m'.closed :: s in m.closed || s == m.tabs[index].snapshot;
    assert m.tabs[index] in m.tabs;
  }

  lemma ClosedDistinct(m: Model, m': Model, index: int)
    requires Distinct(AllIds(m)) && InRange(m.tabs, index) && m'.tabs == Removed(m.tabs, index)
    requires m'.closed == Newest(m.closed + [m.tabs[index].snapshot], MaxRecentlyClosed)
    ensures Distinct(AllIds(m')) && forall id <- AllIds(m') :: id in AllIds(m)
  {
    RemovedTabs(m.tabs, index);
    DistinctParts(m);
    var id := Ids(m.tabs)[index];
    var all := ClosedIds(m.closed) + [id];
    assert ClosedIds(m.closed + [m.tabs[index].snapshot]) == all;
    DistinctJoin(ClosedIds(m.closed), [id]);
    var d := |all| - |m'.closed|;
    assert ClosedIds(m'.closed) == all[d..];
    DistinctSuffix(all, d);
    hide AllIds, Ids, ClosedIds, Distinct;
    AllIdsParts(m);
    AllIdsParts(m');
    forall x <- Ids(m'.tabs) ensures x !in all[d..] {
      assert x in Removed(Ids(m.tabs), index) && x != id;
      assert x in Ids(m.tabs);
    }
    DistinctJoin(Ids(m'.tabs), all[d..]);
  }

  lemma AllIdsParts(m: Model)
    ensures AllIds(m) == Ids(m.tabs) + ClosedIds(m.closed)
    ensures forall id :: id in AllIds(m) <==> id in Ids(m.tabs) || id in ClosedIds(m.closed)
  {}

  lemma ActiveAfterClose(m: Model, index: int)
    requires Valid(m) && InRange(m.tabs, index)
    ensures ActiveFits(|Removed(m.tabs, index)|, Close(m, index).0.active)
  {
    if index != m.active { RemovedAt(m.tabs, index, m.active); }
  }

  // ---- Restoring a session, navigating ----------------------------------------------------------

  lemma {:induction false} RemovalsTell(ids: seq<Text>, active: int)
    ensures FollowAll(View(ids, active), RemovalLog(ids)) == Some(View([], active))
    decreases |ids|
  {
    if ids != [] {
      var last := |ids| - 1;
      var log := RemovalLog(ids);
      assert log[1..] == RemovalLog(ids[..last]);
      assert Removed(ids, last) == ids[..last];
      RemovalsTell(ids[..last], active);
    }
  }

  lemma {:induction false} InsertionsTell(ids: seq<Text>, active: int)
    ensures FollowAll(View([], active), InsertionLog(ids)) == Some(View(ids, active))
    decreases |ids|
  {
    if ids != [] {
      var last := |ids| - 1;
      InsertionsTell(ids[..last], active);
      FollowAppend(View([], active), InsertionLog(ids[..last]), [TabInserted(last, ids[last])]);
      FollowOne(View(ids[..last], active), TabInserted(last, ids[last]));
      assert Inserted(ids[..last], last, ids[last]) == ids;
    }
  }

  lemma ReplaceKeeps(m: Model, snapshots: seq<Snapshot>, active: int)
    requires Valid(m)
    ensures var (m', ok) := Replace(m, snapshots, active);
      && Valid(m') && Tells(m, m') && (ok <==> Restorable(snapshots, active))
      && (ok ==> m'.tabs == DormantTabs(snapshots) && m'.active == active && m'.closed == [])
  {
    NothingTells(m);
    var m' := Replace(m, snapshots, active).0;
    if m' != m {
      assert Ids(m'.tabs) == ClosedIds(snapshots);
      assert AllIds(m') == ClosedIds(snapshots);
      ReplaceTells(m, m', snapshots, active);
    }
  }

  lemma ReplaceTells(m: Model, m': Model, snapshots: seq<Snapshot>, active: int)
    requires Restorable(snapshots, active) && ActiveFits(|m.tabs|, m.active)
    requires m'.tabs == DormantTabs(snapshots) && m'.active == active && Ids(m'.tabs) == ClosedIds(snapshots)
    requires m'.signals == m.signals + (RemovalLog(Ids(m.tabs)) + InsertionLog(ClosedIds(snapshots))
                                        + if snapshots != [] || m.active != -1 then [ActiveTabChanged(m.active, active)] else [])
    ensures Tells(m, m')
  {
    var v, ids := Shown(m), ClosedIds(snapshots);
    var r, n := RemovalLog(Ids(m.tabs)), InsertionLog(ids);
    var change := if snapshots != [] || m.active != -1 then [ActiveTabChanged(m.active, active)] else [];
    RemovalsTell(Ids(m.tabs), m.active);
    InsertionsTell(ids, m.active);
    FollowAppend(v, r, n);
    FollowAppend(v, r + n, change);
    FollowOne(View(ids, m.active), ActiveTabChanged(m.active, active));
    assert m'.signals[|m.signals|..] == r + n + change;
  }

  /** A tab is replaced by another with the same id. */
  lemma ChangedKeeps(m: Model, m': Model, index: int, tab: Tab)
    requires Valid(m) && InRange(m.tabs, index) && tab.snapshot.id == m.tabs[index].snapshot.id && ValidTab(tab)
    requires m' == Changed(m, index, tab) || m' == Emitted(m.(tabs := m.tabs[index := tab]), [TabChanged(index)])
    ensures Valid(m') && Tells(m, m') && AllIds(m') == AllIds(m) && ActiveId(m') == ActiveId(m)
  {
    assert Ids(m'.tabs) == Ids(m.tabs);
    assert forall t <- m'.tabs :: t in m.tabs || t == tab;
    var tail := if m' == Changed(m, index, tab) then [PersistenceNeeded] else [];
    assert m'.signals == m.signals + ([TabChanged(index)] + [] + tail);
    TellsParts(m, m', TabChanged(index), [], tail);
  }

  /** Visiting an address, and stepping through the history, keep a history valid. */
  lemma VisitedIsValid(s: Snapshot, address: Text)
    requires ValidHistory(s) && address != []
    ensures ValidHistory(Visited(s, address))
  {
    var kept := Upto(s.history, s.historyIndex + 1) + [address];
    assert forall e <- kept :: e in s.history || e == address;
    assert forall e <- Newest(kept, MaxHistoryEntries) :: e in kept;
  }

  lemma NavigateKeeps(m: Model, id: Text, kind: Kind, address: Text)
    requires Valid(m)
    ensures var m' := Navigate(m, id, kind, address).0;
      Valid(m') && Tells(m, m') && AllIds(m') == AllIds(m) && ActiveId(m') == ActiveId(m)
  {
    NothingTells(m);
    var index := IndexOfId(m.tabs, id);
    if index >= 0 && address != [] {
      var tab := m.tabs[index];
      assert tab in m.tabs;
      var next := if tab.snapshot.history[tab.snapshot.historyIndex] == address then tab
                  else tab.(snapshot := Visited(tab.snapshot, address));
      VisitedIsValid(tab.snapshot, address);
      ChangedKeeps(m, Changed(m, index, WithKind(next, kind)), index, WithKind(next, kind));
    }
  }

  lemma StepKeeps(m: Model, id: Text, kind: Kind, step: int)
    requires Valid(m)
    ensures var m' := Step(m, id, kind, step).0;
      Valid(m') && Tells(m, m') && AllIds(m') == AllIds(m) && ActiveId(m') == ActiveId(m)
  {
    NothingTells(m);
    var index := IndexOfId(m.tabs, id);
    if index >= 0 {
      var tab := m.tabs[index];
      assert tab in m.tabs;
      var to := tab.snapshot.historyIndex + step;
      if InRange(tab.snapshot.history, to) {
        var next := tab.(snapshot := tab.snapshot.(historyIndex := to, address := tab.snapshot.history[to]));
        ChangedKeeps(m, Changed(m, index, WithKind(next, kind)), index, WithKind(next, kind));
      }
    }
  }

  lemma SetterKeeps(m: Model, id: Text, title: Text, presentation: Presentation)
    requires Valid(m) && 0 <= presentation.progress <= 100
    ensures var m' := SetTitle(m, id, title).0; Valid(m') && Tells(m, m') && AllIds(m') == AllIds(m) && ActiveId(m') == ActiveId(m)
    ensures var m' := SetPresentation(m, id, presentation).0;
      Valid(m') && Tells(m, m') && AllIds(m') == AllIds(m) && ActiveId(m') == ActiveId(m)
  {
    NothingTells(m);
    var index := IndexOfId(m.tabs, id);
    if index >= 0 {
      var tab := m.tabs[index];
      assert tab in m.tabs;
      var shown := tab.(presentation := presentation);
      ChangedKeeps(m, Emitted(m.(tabs := m.tabs[index := shown]), [TabChanged(index)]), index, shown);
      if CanonicalTitle(title).Some? {
        TitleIsAFullPrefix(title);
        var titled := tab.(snapshot := tab.snapshot.(title := CanonicalTitle(title).value));
        ChangedKeeps(m, Changed(m, index, titled), index, titled);
      }
    }
  }

  /** What is shown of a tab's state changes no id and no selection, and progress stays a percentage. */
  lemma StateSettersKeep(m: Model, id: Text, lifecycle: Lifecycle, loading: bool, progress: int, visual: VisualState)
    requires Valid(m)
    ensures var m' := SetLifecycle(m, id, lifecycle).0;
      Valid(m') && Tells(m, m') && AllIds(m') == AllIds(m) && ActiveId(m') == ActiveId(m)
    ensures var m' := SetLoadState(m, id, loading, progress).0;
      Valid(m') && Tells(m, m') && AllIds(m') == AllIds(m) && ActiveId(m') == ActiveId(m)
    ensures var m' := SetVisualState(m, id, visual).0;
      Valid(m') && Tells(m, m') && AllIds(m') == AllIds(m) && ActiveId(m') == ActiveId(m)
  {
    var p := PresentationOf(m, id);
    assert 0 <= p.progress <= 100 by { ShownIsValid(m, id); }
    hide Valid, Tells, AllIds, ActiveId, PresentationOf, SetPresentation;
    SetterKeeps(m, id, [], p.(lifecycle := lifecycle));
    SetterKeeps(m, id, [], p.(loading := loading, progress := Clamped(progress)));
    SetterKeeps(m, id, [], p.(visual := visual));
  }

  lemma ShownIsValid(m: Model, id: Text)
    requires Valid(m)
    ensures 0 <= PresentationOf(m, id).progress <= 100
  {
    var index := IndexOfId(m.tabs, id);
    if index >= 0 { assert m.tabs[index] in m.tabs; }
  }

  // ---- Runs ---------------------------------------------------------------------------------------

  datatype Call =
    | CallCreate(kind: Kind, title: Text, address: Text, makeActive: bool, id: Text)
    | CallActivate(index: int)
    | CallMove(from: int, to: int)
    | CallClose(index: int)
    | CallReopen(makeActive: bool, id: Text)
    | CallNavigate(tab: Text, kind: Kind, address: Text)
    | CallBack(tab: Text, kind: Kind)
    | CallForward(tab: Text, kind: Kind)
    | CallSetTitle(tab: Text, title: Text)
    | CallSetLifecycle(tab: Text, lifecycle: Lifecycle)
    | CallSetLoadState(tab: Text, loading: bool, progress: int)
    | CallSetVisualState(tab: Text, visual: VisualState)
    | CallReplace(snapshots: seq<Snapshot>, active: int)

  function Apply(m: Model, c: Call): Model {
    match c
    case CallCreate(kind, title, address, makeActive, id) => Create(m, kind, title, address, makeActive, id).0
    case CallActivate(index) => Activate(m, index).0
    case CallMove(from, to) => Move(m, from, to).0
    case CallClose(index) => Close(m, index).0
    case CallReopen(makeActive, id) => Reopen(m, makeActive, id).0
    case CallNavigate(tab, kind, address) => Navigate(m, tab, kind, address).0
    case CallBack(tab, kind) => Step(m, tab, kind, -1).0
    case CallForward(tab, kind) => Step(m, tab, kind, 1).0
    case CallSetTitle(tab, title) => SetTitle(m, tab, title).0
    case CallSetLifecycle(tab, lifecycle) => SetLifecycle(m, tab, lifecycle).0
    case CallSetLoadState(tab, loading, progress) => SetLoadState(m, tab, loading, progress).0
    case CallSetVisualState(tab, visual) => SetVisualState(m, tab, visual).0
    case CallReplace(snapshots, active) => Replace(m, snapshots, active).0
  }

  /** The identifiers that calls draw are valid and not in use. */
  predicate Draws(m: Model, c: Call) {
    c.CallCreate? || c.CallReopen? ==> IsValidId(c.id) && c.id !in AllIds(m)
  }

  predicate DrawAll(m: Model, calls: seq<Call>)
    decreases calls
  {
    calls == [] || (Draws(m, calls[0]) && DrawAll(Apply(m, calls[0]), calls[1..]))
  }

  function Run(m: Model, calls: seq<Call>): Model {
    Iterate(Apply, m, calls)
  }

  lemma ApplyKeeps(m: Model, c: Call)
    requires Valid(m) && Draws(m, c)
    ensures Valid(Apply(m, c)) && Tells(m, Apply(m, c))
  {
    hide Valid, Create, Activate, Move, Close, Reopen, Navigate, Step, SetTitle, SetLifecycle, SetLoadState, SetVisualState,
         Replace, Tells, AllIds;
    match c
    case CallCreate(kind, title, address, makeActive, id) => CreateKeeps(m, kind, title, address, makeActive, id);
    case CallActivate(index) => ActivateKeeps(m, index);
    case CallMove(from, to) => MoveKeeps(m, from, to);
    case CallClose(index) => CloseKeeps(m, index);
    case CallReopen(makeActive, id) => ReopenKeeps(m, makeActive, id);
    case CallNavigate(tab, kind, address) => NavigateKeeps(m, tab, kind, address);
    case CallBack(tab, kind) => StepKeeps(m, tab, kind, -1);
    case CallForward(tab, kind) => StepKeeps(m, tab, kind, 1);
    case CallSetTitle(tab, title) => SetterKeeps(m, tab, title, DefaultPresentation(Host));
    case CallSetLifecycle(tab, lifecycle) => StateSettersKeep(m, tab, lifecycle, false, 0, Normal);
    case CallSetLoadState(tab, loading, progress) => StateSettersKeep(m, tab, Dormant, loading, progress, Normal);
    case CallSetVisualState(tab, visual) => StateSettersKeep(m, tab, Dormant, false, 0, visual);
    case CallReplace(snapshots, active) => ReplaceKeeps(m, snapshots, active);
  }

  lemma {:induction false} RunKeeps(m: Model, calls: seq<Call>)
    requires Valid(m) && DrawAll(m, calls)
    ensures Valid(Run(m, calls)) && Tells(m, Run(m, calls))
    decreases calls
  {
    hide Valid, Tells, Apply, Draws;
    if calls == [] {
      NothingTells(m);
    } else {
      ApplyKeeps(m, calls[0]);
      RunKeeps(Apply(m, calls[0]), calls[1..]);
      TellsOn(m, Apply(m, calls[0]), Run(m, calls));
    }
  }

  /**
   After any calls at all, an observer that started with nothing and followed only the
   signals for inserted, removed, moved and activated tabs has the model's tabs in
   order and its active index.
   */
  lemma SignalsTellEverything(calls: seq<Call>)
    requires DrawAll(EmptyModel, calls)
    ensures var m := Run(EmptyModel, calls); FollowAll(EmptyView, m.signals) == Some(Shown(m))
  {
    assert Ids([]) == [];
    RunKeeps(EmptyModel, calls);
    var m := Run(EmptyModel, calls);
    assert m.signals[0..] == m.signals;
  }

  /** After any calls the ids of open and recently closed tabs are distinct, and a tab is active exactly if there is one. */
  lemma IdentityAndSelection(calls: seq<Call>)
    requires DrawAll(EmptyModel, calls)
    ensures var m := Run(EmptyModel, calls);
      && Distinct(AllIds(m)) && |m.tabs| <= MaxOpenTabs && |m.closed| <= MaxRecentlyClosed
      && (m.active == -1 <==> m.tabs == []) && (m.tabs != [] ==> 0 <= m.active < |m.tabs|)
      && forall tab <- m.tabs :: ValidTab(tab)
  {
    RunKeeps(EmptyModel, calls);
  }

  /** While a mutator runs, every other is refused without effect. */
  lemma BusyRefuses(m: Model, c: Call)
    requires m.busy
    ensures Apply(m, c) == m
  {}

  // ---- Reopening ------------------------------------------------------------------------------------

  function CloseAll(m: Model, indices: seq<int>): Model
    decreases indices
  {
    if indices == [] then m else CloseAll(Close(m, indices[0]).0, indices[1..])
  }

  /** The snapshots that closing those tabs one after the other puts aside, oldest first. */
  function PutAside(m: Model, indices: seq<int>): seq<Snapshot>
    decreases indices
  {
    if indices == [] then []
    else (if InRange(m.tabs, indices[0]) then [m.tabs[indices[0]].snapshot] else [])
         + PutAside(Close(m, indices[0]).0, indices[1..])
  }

  function ReopenAll(m: Model, ids: seq<Text>): Model
    decreases ids
  {
    if ids == [] then m else ReopenAll(Reopen(m, false, ids[0]).0, ids[1..])
  }

  lemma NewestTwice<T>(s: seq<T>, t: seq<T>, limit: nat)
    ensures Newest(Newest(s, limit) + t, limit) == Newest(s + t, limit)
  {}

  lemma {:induction false} ClosedAreKept(m: Model, indices: seq<int>)
    requires !m.busy && |m.closed| <= MaxRecentlyClosed
    ensures CloseAll(m, indices).closed == Newest(m.closed + PutAside(m, indices), MaxRecentlyClosed)
    ensures !CloseAll(m, indices).busy
    decreases indices
  {
    if indices == [] {
      assert m.closed + [] == m.closed;
    } else {
      var next := Close(m, indices[0]).0;
      ClosedAreKept(next, indices[1..]);
      var first := if InRange(m.tabs, indices[0]) then [m.tabs[indices[0]].snapshot] else [];
      var rest := PutAside(next, indices[1..]);
      assert next.closed == Newest(m.closed + first, MaxRecentlyClosed) by { assert m.closed + [] == m.closed; }
      NewestTwice(m.closed + first, rest, MaxRecentlyClosed);
      assert m.closed + first + rest == m.closed + (first + rest);
    }
  }

  /** The tabs that reopening brings back: the newest first, the same but for the id. */
  function Restored(closed: seq<Snapshot>, ids: seq<Text>): seq<Tab>
    requires |ids| <= |closed|
    decreases ids
  {
    if ids == [] then []
    else
      var last := |closed| - 1;
      [DormantTab(closed[last].(id := ids[0]))] + Restored(closed[..last], ids[1..])
  }

  lemma {:induction false} RestoredAt(closed: seq<Snapshot>, ids: seq<Text>, k: nat)
    requires k < |ids| <= |closed|
    ensures |Restored(closed, ids)| == |ids|
    ensures Restored(closed, ids)[k] == DormantTab(closed[|closed| - 1 - k].(id := ids[k]))
    decreases ids
  {
    var last := |closed| - 1;
    if k > 0 { RestoredAt(closed[..last], ids[1..], k - 1); }
    else if |ids| > 1 { RestoredAt(closed[..last], ids[1..], 0); }
  }

  lemma {:induction false} ReopenedInReverse(m: Model, ids: seq<Text>)
    requires !m.busy && |ids| <= |m.closed| && |m.tabs| + |ids| <= MaxOpenTabs
    ensures ReopenAll(m, ids).tabs == m.tabs + Restored(m.closed, ids)
    decreases ids
  {
    if ids == [] {
      assert m.tabs + [] == m.tabs;
    } else {
      var last := |m.closed| - 1;
      var next := Reopen(m, false, ids[0]).0;
      ReopenedInReverse(next, ids[1..]);
      var first := DormantTab(m.closed[last].(id := ids[0]));
      assert next.tabs == m.tabs + [first];
      assert m.tabs + [first] + Restored(m.closed[..last], ids[1..]) == m.tabs + ([first] + Restored(m.closed[..last], ids[1..]));
    }
  }

  lemma RestoredFirst(closed: seq<Snapshot>, ids: seq<Text>)
    requires ids != [] && |ids| <= |closed|
    ensures var last := |closed| - 1;
      Restored(closed, ids) == [DormantTab(closed[last].(id := ids[0]))] + Restored(closed[..last], ids[1..])
  {}

  lemma {:induction false} OnlyTheNewestMatter(closed: seq<Snapshot>, limit: nat, ids: seq<Text>)
    requires |ids| <= |Newest(closed, limit)|
    ensures Restored(Newest(closed, limit), ids) == Restored(closed, ids)
    decreases ids
  {
    if ids != [] && |closed| > limit {
      var newest, last := Newest(closed, limit), |closed| - 1;
      OnlyTheNewestMatter(closed[..last], limit - 1, ids[1..]);
      hide Restored;
      assert newest[..limit - 1] == Newest(closed[..last], limit - 1);
      assert newest[limit - 1] == closed[last];
      RestoredFirst(newest, ids);
      RestoredFirst(closed, ids);
    }
  }

  /**
   Closing any tabs and then reopening some brings back those closed last, in
   reverse order and unchanged but for their ids; at most sixteen can be brought back.
   */
  lemma ReopenUndoesClose(m: Model, indices: seq<int>, ids: seq<Text>)
    requires Valid(m)
    requires |ids| <= |CloseAll(m, indices).closed| && |CloseAll(m, indices).tabs| + |ids| <= MaxOpenTabs
    ensures |ids| <= MaxRecentlyClosed && |ids| <= |m.closed + PutAside(m, indices)|
    ensures ReopenAll(CloseAll(m, indices), ids).tabs
         == CloseAll(m, indices).tabs + Restored(m.closed + PutAside(m, indices), ids)
  {
    hide CloseAll, PutAside, ReopenAll, Restored, Valid;
    assert !m.busy && |m.closed| <= MaxRecentlyClosed by { ValidFacts(m); }
    ClosedAreKept(m, indices);
    ReopenedInReverse(CloseAll(m, indices), ids);
    OnlyTheNewestMatter(m.closed + PutAside(m, indices), MaxRecentlyClosed, ids);
  }

  lemma ValidFacts(m: Model)
    requires Valid(m)
    ensures !m.busy && |m.closed| <= MaxRecentlyClosed
  {}
}
