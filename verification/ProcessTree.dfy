/**
 The walk over the process tree: a list that grows while it is walked.  `read` stands
 for opening a process and reading its creation time, which may fail.
 */
module ProcessTree {
  import opened Common

  datatype Entry = Entry(pid: nat, parent: nat)

  datatype Process = Process(pid: nat, created: nat)

  function ChildrenOf(entries: seq<Entry>, parent: nat): (children: seq<nat>)
    ensures forall c :: c in children <==> Entry(c, parent) in entries
  {
    if entries == [] then []
    else
      assert entries == [entries[0]] + entries[1..];
      (if entries[0].parent == parent then [entries[0].pid] else []) + ChildrenOf(entries[1..], parent)
  }

  /** A snapshot lists each process once. */
  predicate UniquePids(entries: seq<Entry>) {
    forall i, j :: 0 <= i < j < |entries| ==> entries[i].pid != entries[j].pid
  }

  function Pids(processes: seq<Process>): set<nat> {
    set p <- processes :: p.pid
  }

  /** `child` is a readable process that `parent` started and that is not older than it. */
  predicate Descends(entries: seq<Entry>, read: nat -> Option<nat>, root: Process, parent: Process, child: Process) {
    && Entry(child.pid, parent.pid) in entries && child.pid != root.pid
    && read(child.pid) == Some(child.created) && child.created >= parent.created
  }

  /** Each process of the chain descends from the one before it, back to the root. */
  predicate Chain(entries: seq<Entry>, read: nat -> Option<nat>, root: Process, chain: seq<Process>) {
    && chain != [] && chain[0] == root
    && forall k :: 0 < k < |chain| ==> Descends(entries, read, root, chain[k - 1], chain[k])
  }

  ghost predicate Joined(entries: seq<Entry>, read: nat -> Option<nat>, root: Process, p: Process) {
    exists chain :: Chain(entries, read, root, chain) && chain[|chain| - 1] == p
  }

  lemma JoinOne(entries: seq<Entry>, read: nat -> Option<nat>, root: Process, parent: Process, child: Process)
    requires Joined(entries, read, root, parent) && Descends(entries, read, root, parent, child)
    ensures Joined(entries, read, root, child)
  {
    var chain :| Chain(entries, read, root, chain) && chain[|chain| - 1] == parent;
    assert Chain(entries, read, root, chain + [child]);
  }

  /** Whatever is closed under descent holds every joined process. */
  lemma {:induction false} ClosedHoldsChain(entries: seq<Entry>, read: nat -> Option<nat>, root: Process,
                                            found: seq<Process>, chain: seq<Process>, k: nat)
    requires Chain(entries, read, root, chain) && k < |chain| && root in found
    requires forall p, c :: p in found && Descends(entries, read, root, p, c) ==> c in found
    ensures chain[k] in found
  {
    if k > 0 { ClosedHoldsChain(entries, read, root, found, chain, k - 1); }
  }

  /** Everything listed about `visited`: each was tried from the one process that started it. */
  ghost predicate Tried(entries: seq<Entry>, read: nat -> Option<nat>, root: Process, found: seq<Process>, v: nat) {
    v == root.pid ||
    exists parent :: parent in found && Entry(v, parent.pid) in entries
                     && (read(v).Some? && read(v).value >= parent.created ==> Process(v, read(v).value) in found)
  }

  /** No process is found twice. */
  predicate DistinctPids(found: seq<Process>) {
    forall i, j :: 0 <= i < j < |found| ==> found[i].pid != found[j].pid
  }

  /**
   With unique pids the walk ends, whatever the parent links, and finds exactly the
   readable processes joined to the root by chains in which no process is older than
   its parent.
   */
  method WalkTree(entries: seq<Entry>, read: nat -> Option<nat>, root: Process) returns (found: seq<Process>, unavailable: nat)
    requires UniquePids(entries)
    ensures forall p :: p in found <==> Joined(entries, read, root, p)
    ensures DistinctPids(found)
    ensures unavailable == |Unreadable(entries, read, root, found)|
  {
    found := [root];
    unavailable := 0;
    var visited, i := {root.pid}, 0;
    RootIsWalked(entries, read, root);
    assert Swept(entries, found, 0, visited);
    hide Walked, UniquePids, Swept, FailedIn, AllPids;
    while i < |found|
      invariant 0 <= i <= |found|
      invariant Walked(entries, read, root, found, visited) && visited <= AllPids(entries, root)
      invariant unavailable == |FailedIn(read, root, visited)|
      invariant Swept(entries, found, i, visited)
      decreases AllPids(entries, root) - visited, |found| - i
    {
      ghost var walked, seen := found, visited;
      var failures;
      found, visited, failures := VisitChildren(entries, read, root, found, visited, found[i]);
      unavailable := unavailable + failures;
      SweepOn(entries, walked, found, i, seen, visited);
      i := i + 1;
    }
    Complete(entries, read, root, found, visited);
    FailedAreUnreadable(entries, read, root, found, visited);
  }

  lemma RootIsWalked(entries: seq<Entry>, read: nat -> Option<nat>, root: Process)
    ensures Walked(entries, read, root, [root], {root.pid}) && FailedIn(read, root, {root.pid}) == {}
    ensures {root.pid} <= AllPids(entries, root)
  {
    assert Chain(entries, read, root, [root]) && [root][0] == root;
  }

  /** All children of the first `i` processes were tried. */
  predicate Swept(entries: seq<Entry>, found: seq<Process>, i: nat, visited: set<nat>)
    requires i <= |found|
  {
    forall k :: 0 <= k < i ==> forall c <- ChildrenOf(entries, found[k].pid) :: c in visited
  }

  lemma SweepOn(entries: seq<Entry>, walked: seq<Process>, found: seq<Process>, i: nat, seen: set<nat>, visited: set<nat>)
    requires i < |walked| && walked <= found && seen <= visited && Swept(entries, walked, i, seen)
    requires forall c <- ChildrenOf(entries, walked[i].pid) :: c in visited
    ensures Swept(entries, found, i + 1, visited)
  {
    assert forall k :: 0 <= k <= i ==> found[k] == walked[k];
  }

  /** The processes tried in vain. */
  ghost function FailedIn(read: nat -> Option<nat>, root: Process, visited: set<nat>): set<nat> {
    set v | v in visited && v != root.pid && read(v).None?
  }

  /** The children of one process are tried, each unless it was tried before. */
  method VisitChildren(entries: seq<Entry>, read: nat -> Option<nat>, root: Process, found: seq<Process>, visited: set<nat>,
                       parent: Process) returns (found': seq<Process>, visited': set<nat>, failures: nat)
    requires Walked(entries, read, root, found, visited) && parent in found
    ensures Walked(entries, read, root, found', visited') && visited' <= AllPids(entries, root)
    ensures found <= found' && visited <= visited' && (found' != found ==> visited != visited')
    ensures forall c <- ChildrenOf(entries, parent.pid) :: c in visited'
    ensures |FailedIn(read, root, visited')| == |FailedIn(read, root, visited)| + failures
  {
    hide Tried, Joined, DistinctPids;
    found', visited', failures := found, visited, 0;
    var children, j := ChildrenOf(entries, parent.pid), 0;
    while j < |children|
      invariant 0 <= j <= |children| && parent in found'
      invariant Walked(entries, read, root, found', visited')
      invariant found <= found' && visited <= visited' && (found' != found ==> visited != visited')
      invariant forall k :: 0 <= k < j ==> children[k] in visited'
      invariant |FailedIn(read, root, visited')| == |FailedIn(read, root, visited)| + failures
    {
      var child := children[j];
      if child !in visited' {
        assert child in children;
        var data := read(child);
        VisitChild(entries, read, root, found', visited', parent, child);
        FailedGrow(read, root, visited', child);
        if data.None? {
          failures := failures + 1;
        } else if data.value >= parent.created {
          found' := found' + [Process(child, data.value)];
        }
        visited' := visited' + {child};
      }
      j := j + 1;
    }
  }

  lemma FailedGrow(read: nat -> Option<nat>, root: Process, visited: set<nat>, child: nat)
    requires root.pid in visited && child !in visited
    ensures |FailedIn(read, root, visited + {child})| == |FailedIn(read, root, visited)| + if read(child).None? then 1 else 0
  {
    assert FailedIn(read, root, visited + {child})
        == FailedIn(read, root, visited) + if read(child).None? then {child} else {};
  }

  function AllPids(entries: seq<Entry>, root: Process): set<nat> {
    {root.pid} + set e <- entries :: e.pid
  }

  /** The processes started by found ones that could not be read. */
  ghost function Unreadable(entries: seq<Entry>, read: nat -> Option<nat>, root: Process, found: seq<Process>): set<nat> {
    set e | e in entries && e.parent in Pids(found) && e.pid != root.pid && read(e.pid).None? :: e.pid
  }

  ghost predicate Walked(entries: seq<Entry>, read: nat -> Option<nat>, root: Process, found: seq<Process>, visited: set<nat>) {
    && DistinctPids(found) && root in found
    && root.pid in visited && visited <= AllPids(entries, root)
    && (forall p <- found :: p.pid in visited && Joined(entries, read, root, p))
    && (forall v <- visited :: Tried(entries, read, root, found, v))
  }

  lemma VisitChild(entries: seq<Entry>, read: nat -> Option<nat>, root: Process, found: seq<Process>, visited: set<nat>,
                   parent: Process, child: nat)
    requires Walked(entries, read, root, found, visited) && parent in found && Entry(child, parent.pid) in entries
    requires child !in visited
    ensures var data := read(child);
      var found' := if data.Some? && data.value >= parent.created then found + [Process(child, data.value)] else found;
      Walked(entries, read, root, found', visited + {child})
  {
    var data := read(child);
    var found' := if data.Some? && data.value >= parent.created then found + [Process(child, data.value)] else found;
    if found' != found {
      JoinOne(entries, read, root, parent, Process(child, data.value));
      forall k | 0 <= k < |found| ensures found[k].pid != child { assert found[k] in found; }
    }
    forall v <- visited ensures Tried(entries, read, root, found', v) {
      if v != root.pid {
        var p :| p in found && Entry(v, p.pid) in entries
                 && (read(v).Some? && read(v).value >= p.created ==> Process(v, read(v).value) in found);
        assert p in found';
      }
    }
    assert parent in found';
  }

  lemma SameParent(entries: seq<Entry>, v: nat, p: nat, q: nat)
    requires UniquePids(entries) && Entry(v, p) in entries && Entry(v, q) in entries
    ensures p == q
  {}

  lemma SameProcess(found: seq<Process>, p: Process, q: Process)
    requires DistinctPids(found) && p in found && q in found && p.pid == q.pid
    ensures p == q
  {}

  lemma Complete(entries: seq<Entry>, read: nat -> Option<nat>, root: Process, found: seq<Process>, visited: set<nat>)
    requires UniquePids(entries) && Walked(entries, read, root, found, visited)
    requires Swept(entries, found, |found|, visited)
    ensures forall p :: p in found <==> Joined(entries, read, root, p)
  {
    forall p, c | p in found && Descends(entries, read, root, p, c) ensures c in found {
      var k :| 0 <= k < |found| && found[k] == p;
      assert c.pid in ChildrenOf(entries, found[k].pid);
      var q :| q in found && Entry(c.pid, q.pid) in entries
               && (read(c.pid).Some? && read(c.pid).value >= q.created ==> Process(c.pid, read(c.pid).value) in found);
      SameParent(entries, c.pid, p.pid, q.pid);
      SameProcess(found, p, q);
    }
    forall p | Joined(entries, read, root, p) ensures p in found {
      var chain :| Chain(entries, read, root, chain) && chain[|chain| - 1] == p;
      ClosedHoldsChain(entries, read, root, found, chain, |chain| - 1);
    }
  }

  lemma FailedAreUnreadable(entries: seq<Entry>, read: nat -> Option<nat>, root: Process, found: seq<Process>, visited: set<nat>)
    requires Walked(entries, read, root, found, visited)
    requires Swept(entries, found, |found|, visited)
    ensures FailedIn(read, root, visited) == Unreadable(entries, read, root, found)
  {
    forall v | v in visited && v != root.pid && read(v).None? ensures v in Unreadable(entries, read, root, found) {
      var p :| p in found && Entry(v, p.pid) in entries;
    }
    forall v | v in Unreadable(entries, read, root, found) ensures v in visited {
      var e :| e in entries && e.parent in Pids(found) && e.pid == v;
      var p :| p in found && p.pid == e.parent;
      var k :| 0 <= k < |found| && found[k] == p;
      assert v in ChildrenOf(entries, found[k].pid);
    }
  }
}
