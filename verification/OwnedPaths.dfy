/**
 Path containment as the Host decides it: on keys with one kind of separator, folded
 case and no trailing separators.
 */
module OwnedPaths {
  import opened Common
  import opened Utf16

  const Separator: CodeUnit := 0x5C
  const Slash: CodeUnit := 0x2F

  /** How the platform folds case, and the path of its root directory. */
  datatype Platform = Platform(fold: Text -> Text, rootPath: Text)

  function Native(t: Text): Text {
    if t == [] then [] else [if t[0] == Slash then Separator else t[0]] + Native(t[1..])
  }

  function PathKey(p: Platform, path: Text): Text {
    Native(p.fold(Native(path)))
  }

  predicate EndsInSeparator(key: Text) { key != [] && key[|key| - 1] == Separator }

  /** Trailing separators go, but not that of the volume's root. */
  function Chopped(key: Text, volume: Text): Text
    decreases |key|
  {
    if |key| > 1 && EndsInSeparator(key) && key != volume then Chopped(key[..|key| - 1], volume) else key
  }

  function RootKey(p: Platform, path: Text): Text {
    Chopped(PathKey(p, path), PathKey(p, p.rootPath))
  }

  method ChopRootKey(p: Platform, path: Text) returns (key: Text)
    ensures key == RootKey(p, path)
  {
    key := PathKey(p, path);
    var volume := PathKey(p, p.rootPath);
    while |key| > 1 && EndsInSeparator(key) && key != volume
      invariant Chopped(key, volume) == RootKey(p, path)
    {
      key := key[..|key| - 1];
    }
  }

  predicate StartsWith(t: Text, prefix: Text) { prefix <= t }

  function Below(key: Text): Text {
    if EndsInSeparator(key) then key else key + [Separator]
  }

  /** Containment of keys. */
  predicate Within(root: Text, candidate: Text) {
    root != [] && candidate != [] && (candidate == root || StartsWith(candidate, Below(root)))
  }

  predicate PathWithinOrEqual(p: Platform, root: Text, candidate: Text) {
    Within(RootKey(p, root), RootKey(p, candidate))
  }

  predicate StrictPathDescendant(p: Platform, root: Text, candidate: Text) {
    PathWithinOrEqual(p, root, candidate) && !PathWithinOrEqual(p, candidate, root)
  }

  predicate PathsOverlap(p: Platform, left: Text, right: Text) {
    PathWithinOrEqual(p, left, right) || PathWithinOrEqual(p, right, left)
  }

  // ---- A laminar order --------------------------------------------------------------------------------

  lemma WithinIsPrefix(root: Text, candidate: Text)
    requires Within(root, candidate)
    ensures root <= candidate && (root != candidate ==> |root| < |candidate| && Below(root) <= candidate)
  {
    if root != candidate {
      assert Below(root)[..|root|] == root;
    }
  }

  /** Every path that has a key contains itself. */
  lemma WithinIsReflexive(p: Platform, path: Text)
    ensures PathWithinOrEqual(p, path, path) <==> RootKey(p, path) != []
  {}

  lemma WithinIsTransitive(a: Text, b: Text, c: Text)
    requires Within(a, b) && Within(b, c)
    ensures Within(a, c)
  {
    WithinIsPrefix(a, b);
    WithinIsPrefix(b, c);
    if a != b { assert Below(a) == b[..|Below(a)|] == c[..|Below(a)|]; }
  }

  /** Containing each other means having the same key. */
  lemma WithinIsAntisymmetric(a: Text, b: Text)
    requires Within(a, b) && Within(b, a)
    ensures a == b
  {
    WithinIsPrefix(a, b);
    WithinIsPrefix(b, a);
  }

  /** Two paths that contain a third contain one another: the order is laminar. */
  lemma AncestorsAreComparable(a: Text, b: Text, c: Text)
    requires Within(a, c) && Within(b, c)
    ensures Within(a, b) || Within(b, a)
  {
    WithinIsPrefix(a, c);
    WithinIsPrefix(b, c);
    if |a| <= |b| { ShorterContains(a, b, c); } else { ShorterContains(b, a, c); }
  }

  lemma ShorterContains(a: Text, b: Text, c: Text)
    requires Within(a, c) && Within(b, c) && |a| <= |b|
    ensures Within(a, b)
  {
    WithinIsPrefix(a, c);
    WithinIsPrefix(b, c);
    assert b == c[..|b|] && a == c[..|a|];
    if a != b {
      assert |Below(a)| <= |b|;
      assert Below(a) == c[..|Below(a)|] == b[..|Below(a)|];
    }
  }

  /** Strictly inside means inside with another key. */
  lemma StrictMeansDifferent(p: Platform, root: Text, candidate: Text)
    ensures StrictPathDescendant(p, root, candidate)
       <==> PathWithinOrEqual(p, root, candidate) && RootKey(p, root) != RootKey(p, candidate)
  {
    if PathWithinOrEqual(p, root, candidate) && PathWithinOrEqual(p, candidate, root) {
      WithinIsAntisymmetric(RootKey(p, root), RootKey(p, candidate));
    }
  }

  /** Paths that do not overlap contain nothing in common. */
  lemma DisjointHoldNothingTogether(p: Platform, left: Text, right: Text, path: Text)
    requires !PathsOverlap(p, left, right)
    ensures !(PathWithinOrEqual(p, left, path) && PathWithinOrEqual(p, right, path))
  {
    if PathWithinOrEqual(p, left, path) && PathWithinOrEqual(p, right, path) {
      AncestorsAreComparable(RootKey(p, left), RootKey(p, right), RootKey(p, path));
    }
  }

  lemma {:induction false} ChoppedIsNormal(key: Text, volume: Text)
    ensures var k := Chopped(key, volume); EndsInSeparator(k) ==> |k| == 1 || k == volume
    decreases |key|
  {
    if |key| > 1 && EndsInSeparator(key) && key != volume { ChoppedIsNormal(key[..|key| - 1], volume); }
  }

  /** Only separators are chopped. */
  lemma {:induction false} ChoppedIsPrefix(key: Text, volume: Text)
    ensures var k := Chopped(key, volume); k <= key && forall i :: |k| <= i < |key| ==> key[i] == Separator
    decreases |key|
  {
    if |key| > 1 && EndsInSeparator(key) && key != volume { ChoppedIsPrefix(key[..|key| - 1], volume); }
  }

  lemma {:induction false} NativeTwice(t: Text)
    ensures Native(Native(t)) == Native(t)
  {
    if t != [] { NativeTwice(t[1..]); }
  }

  /** Both kinds of separator name the same path. */
  lemma SlashesDoNotMatter(p: Platform, left: Text, right: Text)
    requires Native(left) == Native(right)
    ensures RootKey(p, left) == RootKey(p, right) && RootKey(p, Native(left)) == RootKey(p, left)
  {
    NativeTwice(left);
  }

  // ---- Containment is a matter of whole names ---------------------------------------------------------

  /** The names between separators, empty ones included. */
  function Parts(key: Text): (parts: seq<Text>)
    ensures parts != []
  {
    if key == [] then [[]]
    else
      var (parts, u) := (Parts(key[..|key| - 1]), key[|key| - 1]);
      if u == Separator then parts + [[]] else parts[..|parts| - 1] + [parts[|parts| - 1] + [u]]
  }

  function Joined(parts: seq<Text>): Text
    requires parts != []
  {
    if |parts| == 1 then parts[0] else Joined(parts[..|parts| - 1]) + [Separator] + parts[|parts| - 1]
  }

  /** What one more character makes of the names. */
  function Extended(parts: seq<Text>, u: CodeUnit): seq<Text>
    requires parts != []
  {
    if u == Separator then parts + [[]] else parts[..|parts| - 1] + [parts[|parts| - 1] + [u]]
  }

  lemma PartsSnoc(key: Text, u: CodeUnit)
    ensures Parts([]) == [[]] && Parts(key + [u]) == Extended(Parts(key), u)
  {
    assert (key + [u])[..|key|] == key;
  }

  lemma ExtendedAppend(s: seq<Text>, t: seq<Text>, u: CodeUnit)
    requires t != []
    ensures Extended(s + t, u) == s + Extended(t, u)
  {}

  lemma {:induction false} PartsAppend(a: Text, b: Text)
    ensures Parts(a + [Separator] + b) == Parts(a) + Parts(b)
    decreases b
  {
    hide Parts;
    PartsSnoc(a, Separator);
    if b == [] {
      assert a + [Separator] + b == a + [Separator];
    } else {
      var (front, u) := (b[..|b| - 1], b[|b| - 1]);
      PartsAppend(a, front);
      PartsSnoc(a + [Separator] + front, u);
      PartsSnoc(front, u);
      ExtendedAppend(Parts(a), Parts(front), u);
      assert b == front + [u] && a + [Separator] + b == a + [Separator] + front + [u];
    }
  }

  lemma {:induction false} JoinedParts(key: Text)
    ensures Joined(Parts(key)) == key
    decreases key
  {
    if key != [] {
      var (front, u) := (key[..|key| - 1], key[|key| - 1]);
      JoinedParts(front);
      var parts := Parts(front);
      if u == Separator {
        assert (parts + [[]])[..|parts|] == parts;
      } else {
        var last := parts[|parts| - 1];
        var next := parts[..|parts| - 1] + [last + [u]];
        assert next[..|next| - 1] == parts[..|parts| - 1];
        assert Joined(next) == Joined(parts) + [u];
      }
      assert key == front + [u];
    }
  }

  lemma {:induction false} JoinedAppend(s: seq<Text>, t: seq<Text>)
    requires s != [] && t != []
    ensures Joined(s + t) == Joined(s) + [Separator] + Joined(t)
    decreases t
  {
    var front := t[..|t| - 1];
    if front == [] {
      assert s + t == s + [t[0]] && (s + t)[..|s + t| - 1] == s;
    } else {
      JoinedAppend(s, front);
      assert (s + t)[..|s + t| - 1] == s + front;
    }
  }

  /** The names of a directory; the volume's root ends in a separator, which is no name. */
  function Directory(key: Text): seq<Text> {
    Parts(if EndsInSeparator(key) then key[..|key| - 1] else key)
  }

  /**
   A key contains another exactly if they are the same or its names are the first names of
   the other: what merely starts with the same letters is not inside.
   */
  lemma WithinIsByNames(root: Text, candidate: Text)
    requires root != [] && candidate != []
    ensures Within(root, candidate) <==> candidate == root || Directory(root) < Parts(candidate)
  {
    var stem := if EndsInSeparator(root) then root[..|root| - 1] else root;
    assert Below(root) == stem + [Separator];
    if Below(root) <= candidate {
      var rest := candidate[|Below(root)|..];
      assert candidate == stem + [Separator] + rest;
      PartsAppend(stem, rest);
    }
    if Directory(root) < Parts(candidate) {
      var rest := Parts(candidate)[|Directory(root)|..];
      assert Parts(candidate) == Directory(root) + rest;
      JoinedAppend(Directory(root), rest);
      JoinedParts(candidate);
      JoinedParts(stem);
      assert candidate == Below(root) + Joined(rest);
    }
  }
}
