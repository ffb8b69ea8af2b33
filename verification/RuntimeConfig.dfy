/** The roots a package-mode configuration names, and when they are accepted. */
module RuntimeConfig {
  import opened Common
  import opened Utf16
  import opened OwnedPaths

  /** The directory of the key, and of a package from outside the deployment, are resolved beforehand. */
  datatype Roots = Roots(
    deployment: Text,
    mutableRoots: seq<Text>,
    runtimeRoots: seq<Text>,
    hostExecutable: Text,
    worker: Text,
    key: Text,
    keyParent: Text,
    externalPackageParent: Option<Text>)

  datatype Verdict =
    | Accepted
    | RuntimeRootsOverlap
    | ContentOutsideDeployment
    | RuntimeOutsideDeployment
    | WorkerOutsideRuntime
    | MutableInDeployment
    | MutableRootsOverlap
    | StateOverlapsRuntime
    | StateOverlapsKey
    | ExternalPackageOverlaps

  /** The state directory is the last of the five mutable roots. */
  function StateDirectory(c: Roots): Text
    requires c.mutableRoots != []
  {
    c.mutableRoots[|c.mutableRoots| - 1]
  }

  predicate PairwiseDisjoint(p: Platform, roots: seq<Text>) {
    forall i, j :: 0 <= i < j < |roots| ==> !PathsOverlap(p, roots[i], roots[j])
  }

  predicate DisjointFromAll(p: Platform, path: Text, roots: seq<Text>) {
    forall i :: 0 <= i < |roots| ==> !PathsOverlap(p, path, roots[i])
  }

  /** The checks in their order. */
  function Check(p: Platform, c: Roots): Verdict
    requires c.mutableRoots != []
  {
    if !PairwiseDisjoint(p, c.runtimeRoots) then RuntimeRootsOverlap
    else if c.keyParent == [] || !StrictPathDescendant(p, c.deployment, c.hostExecutable)
            || !StrictPathDescendant(p, c.deployment, c.worker) || !StrictPathDescendant(p, c.deployment, c.key)
    then ContentOutsideDeployment
    else if exists r <- c.runtimeRoots :: !StrictPathDescendant(p, c.deployment, r) then RuntimeOutsideDeployment
    else if forall r <- c.runtimeRoots :: !StrictPathDescendant(p, r, c.worker) then WorkerOutsideRuntime
    else if !DisjointFromAll(p, c.deployment, c.mutableRoots) then MutableInDeployment
    else if !PairwiseDisjoint(p, c.mutableRoots) then MutableRootsOverlap
    else if !DisjointFromAll(p, StateDirectory(c), c.runtimeRoots) then StateOverlapsRuntime
    else if PathsOverlap(p, StateDirectory(c), c.keyParent) then StateOverlapsKey
    else if c.externalPackageParent.Some?
            && (c.externalPackageParent.value == [] || PathsOverlap(p, c.deployment, c.externalPackageParent.value)
                || !DisjointFromAll(p, c.externalPackageParent.value, c.mutableRoots))
    then ExternalPackageOverlaps
    else Accepted
  }

  method CheckPairs(p: Platform, roots: seq<Text>) returns (ok: bool)
    ensures ok <==> PairwiseDisjoint(p, roots)
  {
    var left := 0;
    while left < |roots|
      invariant 0 <= left <= |roots|
      invariant forall i, j :: 0 <= i < left && i < j < |roots| ==> !PathsOverlap(p, roots[i], roots[j])
    {
      var right := left + 1;
      while right < |roots|
        invariant left + 1 <= right <= |roots|
        invariant forall j :: left < j < right ==> !PathsOverlap(p, roots[left], roots[j])
      {
        if PathsOverlap(p, roots[left], roots[right]) { return false; }
        right := right + 1;
      }
      left := left + 1;
    }
    return true;
  }

  method CheckAgainstAll(p: Platform, path: Text, roots: seq<Text>) returns (ok: bool)
    ensures ok <==> DisjointFromAll(p, path, roots)
  {
    var i := 0;
    while i < |roots|
      invariant 0 <= i <= |roots| && forall k :: 0 <= k < i ==> !PathsOverlap(p, path, roots[k])
    {
      if PathsOverlap(p, path, roots[i]) { return false; }
      i := i + 1;
    }
    return true;
  }

  method FromArguments(p: Platform, c: Roots) returns (verdict: Verdict)
    requires c.mutableRoots != []
    ensures verdict == Check(p, c)
  {
    hide PathsOverlap, StrictPathDescendant, PairwiseDisjoint, DisjointFromAll;
    var apart := CheckPairs(p, c.runtimeRoots);
    if !apart { return RuntimeRootsOverlap; }
    if c.keyParent == [] || !StrictPathDescendant(p, c.deployment, c.hostExecutable)
       || !StrictPathDescendant(p, c.deployment, c.worker) || !StrictPathDescendant(p, c.deployment, c.key)
    {
      return ContentOutsideDeployment;
    }
    var i := 0;
    while i < |c.runtimeRoots|
      invariant 0 <= i <= |c.runtimeRoots| && forall k :: 0 <= k < i ==> StrictPathDescendant(p, c.deployment, c.runtimeRoots[k])
    {
      if !StrictPathDescendant(p, c.deployment, c.runtimeRoots[i]) { return RuntimeOutsideDeployment; }
      i := i + 1;
    }
    var workerInRuntime := false;
    i := 0;
    while i < |c.runtimeRoots| && !workerInRuntime
      invariant 0 <= i <= |c.runtimeRoots|
      invariant !workerInRuntime ==> forall k :: 0 <= k < i ==> !StrictPathDescendant(p, c.runtimeRoots[k], c.worker)
      invariant workerInRuntime ==> exists r <- c.runtimeRoots :: StrictPathDescendant(p, r, c.worker)
    {
      if StrictPathDescendant(p, c.runtimeRoots[i], c.worker) {
        assert c.runtimeRoots[i] in c.runtimeRoots;
        workerInRuntime := true;
      }
      i := i + 1;
    }
    if !workerInRuntime { return WorkerOutsideRuntime; }
    var outside := CheckAgainstAll(p, c.deployment, c.mutableRoots);
    if !outside { return MutableInDeployment; }
    apart := CheckPairs(p, c.mutableRoots);
    if !apart { return MutableRootsOverlap; }
    var stateApart := CheckAgainstAll(p, StateDirectory(c), c.runtimeRoots);
    if !stateApart { return StateOverlapsRuntime; }
    if PathsOverlap(p, StateDirectory(c), c.keyParent) { return StateOverlapsKey; }
    if c.externalPackageParent.Some? {
      if c.externalPackageParent.value == [] || PathsOverlap(p, c.deployment, c.externalPackageParent.value) {
        return ExternalPackageOverlaps;
      }
      var packageApart := CheckAgainstAll(p, c.externalPackageParent.value, c.mutableRoots);
      if !packageApart { return ExternalPackageOverlaps; }
    }
    return Accepted;
  }

  // ---- What acceptance means ------------------------------------------------------------------------------

  /** The path lies in the root: its key has the root's key as a directory above it. */
  predicate LiesIn(p: Platform, root: Text, path: Text) {
    var (r, k) := (RootKey(p, root), RootKey(p, path));
    Within(r, k) && k != r
  }

  /** Neither path is the other or a directory above it. */
  predicate Apart(p: Platform, left: Text, right: Text) {
    var (l, r) := (RootKey(p, left), RootKey(p, right));
    !Within(l, r) && !Within(r, l)
  }

  predicate ContentLiesIn(p: Platform, c: Roots) {
    c.keyParent != [] && LiesIn(p, c.deployment, c.hostExecutable) && LiesIn(p, c.deployment, c.worker) && LiesIn(p, c.deployment, c.key)
  }

  predicate ExternalIsApart(p: Platform, c: Roots) {
    c.externalPackageParent.Some? ==>
      var e := c.externalPackageParent.value;
      e != [] && Apart(p, c.deployment, e) && forall i :: 0 <= i < |c.mutableRoots| ==> Apart(p, e, c.mutableRoots[i])
  }

  predicate EachApart(p: Platform, roots: seq<Text>) {
    forall i, j :: 0 <= i < j < |roots| ==> Apart(p, roots[i], roots[j])
  }

  /** Everything the deployment must hold. */
  predicate Deployed(p: Platform, c: Roots) {
    && ContentLiesIn(p, c) && (forall r <- c.runtimeRoots :: LiesIn(p, c.deployment, r))
    && exists r <- c.runtimeRoots :: LiesIn(p, r, c.worker)
  }

  lemma StrictIsLiesIn(p: Platform, root: Text, path: Text)
    ensures StrictPathDescendant(p, root, path) <==> LiesIn(p, root, path)
  {
    StrictMeansDifferent(p, root, path);
  }

  lemma ContentExactly(p: Platform, c: Roots)
    ensures ContentLiesIn(p, c) <==>
      && c.keyParent != [] && StrictPathDescendant(p, c.deployment, c.hostExecutable)
      && StrictPathDescendant(p, c.deployment, c.worker) && StrictPathDescendant(p, c.deployment, c.key)
    ensures forall r <- c.runtimeRoots :: StrictPathDescendant(p, c.deployment, r) <==> LiesIn(p, c.deployment, r)
    ensures forall r <- c.runtimeRoots :: StrictPathDescendant(p, r, c.worker) <==> LiesIn(p, r, c.worker)
  {
    hide StrictPathDescendant, LiesIn;
    StrictIsLiesIn(p, c.deployment, c.hostExecutable);
    StrictIsLiesIn(p, c.deployment, c.worker);
    StrictIsLiesIn(p, c.deployment, c.key);
    forall r <- c.runtimeRoots
      ensures StrictPathDescendant(p, c.deployment, r) <==> LiesIn(p, c.deployment, r)
      ensures StrictPathDescendant(p, r, c.worker) <==> LiesIn(p, r, c.worker)
    {
      StrictIsLiesIn(p, c.deployment, r);
      StrictIsLiesIn(p, r, c.worker);
    }
  }

  lemma ApartIs(p: Platform, left: Text, right: Text)
    ensures Apart(p, left, right) <==> !PathsOverlap(p, left, right)
  {}

  lemma ApartExactly(p: Platform, c: Roots)
    ensures PairwiseDisjoint(p, c.runtimeRoots) <==> EachApart(p, c.runtimeRoots)
    ensures PairwiseDisjoint(p, c.mutableRoots) <==> EachApart(p, c.mutableRoots)
    ensures DisjointFromAll(p, c.deployment, c.mutableRoots)
       <==> forall i :: 0 <= i < |c.mutableRoots| ==> Apart(p, c.deployment, c.mutableRoots[i])
    ensures c.externalPackageParent.Some? ==>
      (DisjointFromAll(p, c.externalPackageParent.value, c.mutableRoots)
       <==> forall i :: 0 <= i < |c.mutableRoots| ==> Apart(p, c.externalPackageParent.value, c.mutableRoots[i]))
  {
    hide RootKey, Within;
    assert forall a, b :: Apart(p, a, b) <==> !PathsOverlap(p, a, b);
  }

  /**
   The exact condition of acceptance, on keys.  The deployment holds Host, worker, key
   and every runtime root, and one of these holds the worker; runtime roots, and mutable
   roots with the deployment, are apart from one another; the state directory is apart
   from the key's; and so is an external package from deployment and mutable roots.
   Nothing need be said of the state directory and the runtime roots.
   */
  lemma AcceptedExactlyWhen(p: Platform, c: Roots)
    requires c.mutableRoots != []
    ensures Check(p, c) == Accepted <==>
      && Deployed(p, c) && EachApart(p, c.runtimeRoots) && EachApart(p, [c.deployment] + c.mutableRoots)
      && Apart(p, StateDirectory(c), c.keyParent) && ExternalIsApart(p, c)
  {
    hide PathsOverlap, StrictPathDescendant, PairwiseDisjoint, DisjointFromAll, LiesIn, Apart, EachApart, StateDirectory,
         ContentLiesIn;
    ContentExactly(p, c);
    ApartExactly(p, c);
    ApartIs(p, StateDirectory(c), c.keyParent);
    if c.externalPackageParent.Some? { ApartIs(p, c.deployment, c.externalPackageParent.value); }
    StateNeverOverlapsRuntime(p, c);
    JoinedApart(p, c.deployment, c.mutableRoots);
  }

  lemma JoinedApart(p: Platform, first: Text, roots: seq<Text>)
    ensures EachApart(p, [first] + roots)
       <==> EachApart(p, roots) && forall i :: 0 <= i < |roots| ==> Apart(p, first, roots[i])
  {
    hide Apart;
    var all := [first] + roots;
    assert forall i :: 0 <= i < |roots| ==> all[i + 1] == roots[i];
    if EachApart(p, all) {
      forall i, j | 0 <= i < j < |roots| ensures Apart(p, roots[i], roots[j]) { assert Apart(p, all[i + 1], all[j + 1]); }
      forall i | 0 <= i < |roots| ensures Apart(p, first, roots[i]) { assert Apart(p, all[0], all[i + 1]); }
    }
  }

  /** A refusal names something that is wrong. */
  lemma RefusalIsTruthful(p: Platform, c: Roots)
    requires c.mutableRoots != []
    ensures match Check(p, c)
      case Accepted => true
      case RuntimeRootsOverlap => !EachApart(p, c.runtimeRoots)
      case ContentOutsideDeployment => !ContentLiesIn(p, c)
      case RuntimeOutsideDeployment => exists r <- c.runtimeRoots :: !LiesIn(p, c.deployment, r)
      case WorkerOutsideRuntime => forall r <- c.runtimeRoots :: !LiesIn(p, r, c.worker)
      case MutableInDeployment => exists i :: 0 <= i < |c.mutableRoots| && !Apart(p, c.deployment, c.mutableRoots[i])
      case MutableRootsOverlap => !EachApart(p, c.mutableRoots)
      case StateOverlapsRuntime => false
      case StateOverlapsKey => !Apart(p, StateDirectory(c), c.keyParent)
      case ExternalPackageOverlaps => !ExternalIsApart(p, c)
  {
    hide PathsOverlap, StrictPathDescendant, PairwiseDisjoint, DisjointFromAll, LiesIn, Apart, EachApart, StateDirectory,
         ContentLiesIn;
    ContentExactly(p, c);
    ApartExactly(p, c);
    ApartIs(p, StateDirectory(c), c.keyParent);
    if c.externalPackageParent.Some? { ApartIs(p, c.deployment, c.externalPackageParent.value); }
    StateNeverOverlapsRuntime(p, c);
  }

  /** The deployment, the mutable roots and the directory of an external package. */
  function ProtectedRoots(c: Roots): seq<Text> {
    [c.deployment] + c.mutableRoots + (if c.externalPackageParent.Some? then [c.externalPackageParent.value] else [])
  }

  lemma OverlapIsSymmetric(p: Platform, a: Text, b: Text)
    ensures PathsOverlap(p, a, b) == PathsOverlap(p, b, a)
  {}

  /** In an accepted configuration no path at all lies in two of them. */
  lemma NoPathIsInTwoRoots(p: Platform, c: Roots, i: nat, j: nat, path: Text)
    requires c.mutableRoots != [] && Check(p, c) == Accepted && i < j < |ProtectedRoots(c)|
    ensures !(PathWithinOrEqual(p, ProtectedRoots(c)[i], path) && PathWithinOrEqual(p, ProtectedRoots(c)[j], path))
  {
    hide PathsOverlap, StrictPathDescendant, PathWithinOrEqual;
    var n := |c.mutableRoots|;
    if j == n + 1 && i > 0 { OverlapIsSymmetric(p, c.externalPackageParent.value, c.mutableRoots[i - 1]); }
    assert !PathsOverlap(p, ProtectedRoots(c)[i], ProtectedRoots(c)[j]);
    DisjointHoldNothingTogether(p, ProtectedRoots(c)[i], ProtectedRoots(c)[j], path);
  }

  /** The worker lies in exactly one runtime root. */
  lemma WorkerHasOneRuntime(p: Platform, c: Roots)
    requires c.mutableRoots != [] && Check(p, c) == Accepted
    ensures exists i :: 0 <= i < |c.runtimeRoots| && StrictPathDescendant(p, c.runtimeRoots[i], c.worker)
                        && forall j :: 0 <= j < |c.runtimeRoots| && j != i ==> !PathWithinOrEqual(p, c.runtimeRoots[j], c.worker)
  {
    hide PathsOverlap, PathWithinOrEqual;
    var r :| r in c.runtimeRoots && StrictPathDescendant(p, r, c.worker);
    var i :| 0 <= i < |c.runtimeRoots| && c.runtimeRoots[i] == r;
    forall j | 0 <= j < |c.runtimeRoots| && j != i ensures !PathWithinOrEqual(p, c.runtimeRoots[j], c.worker) {
      OverlapIsSymmetric(p, c.runtimeRoots[i], c.runtimeRoots[j]);
      assert !PathsOverlap(p, c.runtimeRoots[i], c.runtimeRoots[j]);
      DisjointHoldNothingTogether(p, c.runtimeRoots[i], c.runtimeRoots[j], c.worker);
    }
  }

  /** The place of the last separator. */
  function LastSeparator(key: Text): (i: int)
    ensures -1 <= i < |key|
    ensures i >= 0 ==> key[i] == Separator
    ensures forall k :: i < k < |key| ==> key[k] != Separator
  {
    if key == [] then -1
    else if key[|key| - 1] == Separator then |key| - 1
    else LastSeparator(key[..|key| - 1])
  }

  /** The key of the directory that holds a file. */
  function ParentKey(key: Text, volume: Text): Text {
    var i := LastSeparator(key);
    if i <= 0 then [Separator]
    else if key[..i + 1] == volume then volume
    else key[..i]
  }

  /** `keyParent` is the directory of the key file. */
  predicate KeyParentFits(p: Platform, c: Roots) {
    RootKey(p, c.keyParent) == ParentKey(RootKey(p, c.key), PathKey(p, p.rootPath))
  }

  /** The directory of a file strictly inside a root is inside it too. */
  lemma ParentStaysInside(p: Platform, c: Roots)
    requires StrictPathDescendant(p, c.deployment, c.key) && KeyParentFits(p, c)
    ensures PathWithinOrEqual(p, c.deployment, c.keyParent)
  {
    var volume := PathKey(p, p.rootPath);
    var d, k := RootKey(p, c.deployment), RootKey(p, c.key);
    StrictMeansDifferent(p, c.deployment, c.key);
    ChoppedIsNormal(PathKey(p, c.deployment), volume);
    ParentInside(d, k, volume);
  }

  lemma ParentInside(d: Text, k: Text, volume: Text)
    requires Within(d, k) && d != k && (EndsInSeparator(d) ==> |d| == 1 || d == volume)
    ensures Within(d, ParentKey(k, volume))
  {
    WithinIsPrefix(d, k);
    var n, i := |Below(d)|, LastSeparator(k);
    assert Below(d)[n - 1] == Separator && k[n - 1] == Below(d)[n - 1];
    assert i >= n - 1;
    assert Below(d) == k[..n];
    assert d == k[..|d|];
    if i > 0 {
      assert k[..i + 1][..n] == Below(d);
      if i >= n { assert k[..i][..n] == Below(d); }
    }
  }

  /**
   The check of the state directory against the runtime roots cannot fail: by then they
   all lie in the deployment, which it does not overlap.
   */
  lemma StateNeverOverlapsRuntime(p: Platform, c: Roots)
    requires c.mutableRoots != []
    ensures Check(p, c) != StateOverlapsRuntime
  {
    hide PathsOverlap, StrictPathDescendant, PathWithinOrEqual;
    if Check(p, c) == StateOverlapsRuntime {
      var state := StateDirectory(c);
      assert !PathsOverlap(p, c.deployment, state);
      forall i | 0 <= i < |c.runtimeRoots| ensures !PathsOverlap(p, state, c.runtimeRoots[i]) {
        assert StrictPathDescendant(p, c.deployment, c.runtimeRoots[i]);
        StrictIsWithin(p, c.deployment, c.runtimeRoots[i]);
        InsideIsApart(p, c.deployment, state, c.runtimeRoots[i]);
      }
    }
  }

  /** Nor can the check against the key's directory, which lies there too if it is the one that holds the key. */
  lemma StateNeverOverlapsKey(p: Platform, c: Roots)
    requires c.mutableRoots != [] && KeyParentFits(p, c)
    ensures Check(p, c) != StateOverlapsKey
  {
    hide PathsOverlap, StrictPathDescendant, PathWithinOrEqual, KeyParentFits;
    if Check(p, c) == StateOverlapsKey {
      assert !PathsOverlap(p, c.deployment, StateDirectory(c));
      ParentStaysInside(p, c);
      InsideIsApart(p, c.deployment, StateDirectory(c), c.keyParent);
    }
  }

  lemma StrictIsWithin(p: Platform, root: Text, path: Text)
    requires StrictPathDescendant(p, root, path)
    ensures PathWithinOrEqual(p, root, path)
  {}

  /** What lies in a root is apart from whatever is apart from the root. */
  lemma InsideIsApart(p: Platform, root: Text, other: Text, path: Text)
    requires !PathsOverlap(p, root, other) && PathWithinOrEqual(p, root, path)
    ensures !PathsOverlap(p, other, path)
  {
    var r, o, k := RootKey(p, root), RootKey(p, other), RootKey(p, path);
    if Within(o, k) { AncestorsAreComparable(r, o, k); }
    if Within(k, o) { WithinIsTransitive(r, k, o); }
  }
}
