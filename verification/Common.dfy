/** Small shared vocabulary: optional values and counting over sequences. */
module Common {

  datatype Option<+T> = None | Some(value: T)

  /** How many elements of `s` satisfy `p`. */
  function Count<T>(s: seq<T>, p: T -> bool): nat {
    if s == [] then 0 else (if p(s[0]) then 1 else 0) + Count(s[1..], p)
  }

  lemma {:induction false} CountAppend<T>(s: seq<T>, t: seq<T>, p: T -> bool)
    ensures Count(s + t, p) == Count(s, p) + Count(t, p)
  {
    if s == [] {
      assert s + t == t;
    } else {
      CountAppend(s[1..], t, p);
      assert (s + t)[1..] == s[1..] + t;
    }
  }

  lemma CountSnoc<T>(s: seq<T>, x: T, p: T -> bool)
    ensures Count(s + [x], p) == Count(s, p) + (if p(x) then 1 else 0)
  {
    CountAppend(s, [x], p);
  }

  /** A count is zero exactly when no element satisfies the predicate. */
  lemma {:induction false} CountZero<T>(s: seq<T>, p: T -> bool)
    ensures Count(s, p) == 0 <==> forall i :: 0 <= i < |s| ==> !p(s[i])
  {
    if s != [] {
      CountZero(s[1..], p);
      assert forall i :: 1 <= i < |s| ==> s[i] == s[1..][i - 1];
      if forall i :: 0 <= i < |s| ==> !p(s[i]) {
        assert !p(s[0]);
        assert forall i :: 0 <= i < |s[1..]| ==> !p(s[1..][i]);
      }
      if Count(s, p) == 0 {
        forall i | 0 <= i < |s| ensures !p(s[i]) {
          if i > 0 { assert s[i] == s[1..][i - 1]; }
        }
      }
    }
  }

  /** Replacing the last element moves the count by the difference of the two. */
  lemma CountUpdateLast<T>(s: seq<T>, x: T, p: T -> bool)
    requires s != []
    ensures Count(s[|s| - 1 := x], p) + (if p(s[|s| - 1]) then 1 else 0)
         == Count(s, p) + (if p(x) then 1 else 0)
  {
    var front := s[..|s| - 1];
    assert s == front + [s[|s| - 1]];
    assert s[|s| - 1 := x] == front + [x];
    CountSnoc(front, s[|s| - 1], p);
    CountSnoc(front, x, p);
  }

  /** Replacing one element moves the count by the difference of the two. */
  lemma CountUpdate<T>(s: seq<T>, i: nat, x: T, p: T -> bool)
    requires i < |s|
    ensures Count(s[i := x], p) + (if p(s[i]) then 1 else 0) == Count(s, p) + (if p(x) then 1 else 0)
  {
    assert s == s[..i + 1] + s[i + 1..] && s[i := x] == s[..i + 1][i := x] + s[i + 1..];
    CountAppend(s[..i + 1], s[i + 1..], p);
    CountAppend(s[..i + 1][i := x], s[i + 1..], p);
    CountUpdateLast(s[..i + 1], x, p);
  }

  /** If at most one element is counted, no two elements are. */
  lemma CountUnique<T>(s: seq<T>, i: nat, j: nat, p: T -> bool)
    requires i < j < |s| && p(s[i]) && p(s[j])
    ensures Count(s, p) >= 2
  {
    assert s == s[..j] + s[j..];
    CountAppend(s[..j], s[j..], p);
    CountZero(s[..j], p);
    CountZero(s[j..], p);
    assert s[..j][i] == s[i] && s[j..][0] == s[j];
  }

  lemma CountPositive<T>(s: seq<T>, i: nat, p: T -> bool)
    requires i < |s| && p(s[i])
    ensures Count(s, p) >= 1
  {
    CountZero(s, p);
  }

  // ---- Runs ------------------------------------------------------------------------------

  /** The state after one step for each action. */
  function Iterate<S, A>(next: (S, A) -> S, s: S, actions: seq<A>): S
    decreases actions
  {
    if actions == [] then s else Iterate(next, next(s, actions[0]), actions[1..])
  }

  /** Runs are composed by writing one after the other. */
  lemma {:induction false} IterateAppend<S, A>(next: (S, A) -> S, s: S, first: seq<A>, second: seq<A>)
    ensures Iterate(next, s, first + second) == Iterate(next, Iterate(next, s, first), second)
    decreases first
  {
    if first == [] {
      assert first + second == second;
    } else {
      assert (first + second)[0] == first[0] && (first + second)[1..] == first[1..] + second;
      IterateAppend(next, next(s, first[0]), first[1..], second);
    }
  }

  /** A run is known from its intermediate states. */
  lemma {:induction false} IterateThrough<S, A>(next: (S, A) -> S, states: seq<S>, actions: seq<A>)
    requires |states| == |actions| + 1
    requires forall i :: 0 <= i < |actions| ==> states[i + 1] == next(states[i], actions[i])
    ensures Iterate(next, states[0], actions) == states[|actions|]
    decreases actions
  {
    if actions != [] {
      assert states[0 + 1] == next(states[0], actions[0]);
      forall i | 0 <= i < |actions[1..]| ensures states[1..][i + 1] == next(states[1..][i], actions[1..][i]) {
        assert states[i + 1 + 1] == next(states[i + 1], actions[i + 1]);
      }
      IterateThrough(next, states[1..], actions[1..]);
    }
  }
}
