/** The title sanitisers of the tab model, the Host's session controller and the worker. */
module Titles {
  import opened Common
  import opened Utf16

  const MaxRawTitle: nat := 4096
  const MaxTitle: nat := 256

  predicate IsBidiControl(u: CodeUnit) {
    u == 0x061C || 0x200E <= u <= 0x200F || 0x202A <= u <= 0x202E || 0x2066 <= u <= 0x206F
  }

  /** General category Cc. */
  predicate IsControl(u: CodeUnit) { u < 0x20 || 0x7F <= u < 0xA0 }

  predicate IsDropped(u: CodeUnit) { IsControl(u) || IsBidiControl(u) }

  predicate IsAngle(u: CodeUnit) { u == 0x3C || u == 0x3E }

  /** The text without its control characters. */
  function Kept(t: Text): Text
    requires Paired(t)
  {
    if t == [] then []
    else if IsHigh(t[0]) then t[..2] + Kept(t[2..])
    else if IsDropped(t[0]) then Kept(t[1..])
    else t[..1] + Kept(t[1..])
  }

  /** The longest prefix of whole characters that fits into `budget` units. */
  function Fit(t: Text, budget: nat): Text
    requires Paired(t)
  {
    if t == [] then []
    else if IsHigh(t[0]) then if budget < 2 then [] else t[..2] + Fit(t[2..], budget - 2)
    else if budget < 1 then []
    else t[..1] + Fit(t[1..], budget - 1)
  }

  /** What the tab model makes of a title. */
  function CanonicalTitle(t: Text): Option<Text> {
    if |t| > MaxRawTitle || !Paired(t) then None
    else
      KeptIsPaired(t);
      Some(Fit(Kept(t), MaxTitle))
  }

  /** What the worker and the Host make of a page's title: markup and titles without text are refused too. */
  function CanonicalPageTitle(t: Text): Option<Text> {
    if t == [] || (exists u <- t :: IsAngle(u)) then None
    else
      var r := CanonicalTitle(t);
      if r == Some([]) then None else r
  }

  /** A title as it may be shown: short, whole characters only, nothing that moves or hides other text. */
  predicate IsClean(t: Text) {
    Paired(t) && forall u <- t :: !IsDropped(u)
  }

  lemma {:induction false} KeptIsPaired(t: Text)
    requires Paired(t)
    ensures IsClean(Kept(t)) && |Kept(t)| <= |t|
    ensures forall u <- Kept(t) :: u in t
  {
    if t != [] {
      var n := if IsHigh(t[0]) then 2 else 1;
      KeptIsPaired(t[n..]);
      var rest := Kept(t[n..]);
      if IsHigh(t[0]) || !IsDropped(t[0]) { PairedPrepend(t[..n], rest); }
    }
  }

  lemma PairedPrepend(c: Text, rest: Text)
    requires IsClean(rest)
    requires (|c| == 2 && IsHigh(c[0]) && IsLow(c[1])) || (|c| == 1 && !IsHigh(c[0]) && !IsLow(c[0]) && !IsDropped(c[0]))
    ensures IsClean(c + rest)
  {
    assert (c + rest)[|c|..] == rest;
  }

  lemma {:induction false} FitFacts(t: Text, budget: nat)
    requires IsClean(t)
    ensures IsClean(Fit(t, budget)) && |Fit(t, budget)| <= budget && |Fit(t, budget)| <= |t|
    ensures Fit(t, budget) == t[..|Fit(t, budget)|]
    ensures Fit(t, budget) != t ==> |Fit(t, budget)| >= budget - 1
  {
    if t != [] {
      var n := if IsHigh(t[0]) then 2 else 1;
      if budget >= n {
        FitFacts(t[n..], budget - n);
        var rest := Fit(t[n..], budget - n);
        PairedPrepend(t[..n], rest);
        assert t[..n] + t[n..][..|rest|] == t[..n + |rest|];
        assert t == t[..n] + t[n..];
      }
    }
  }

  lemma {:induction false} CleanIsKept(t: Text)
    requires IsClean(t)
    ensures Kept(t) == t
  {
    if t != [] {
      var n := if IsHigh(t[0]) then 2 else 1;
      CleanIsKept(t[n..]);
      assert t == t[..n] + t[n..];
    }
  }

  lemma {:induction false} ShortFits(t: Text, budget: nat)
    requires Paired(t)
    ensures |t| <= budget ==> Fit(t, budget) == t
  {
    if t != [] && |t| <= budget {
      var n := if IsHigh(t[0]) then 2 else 1;
      ShortFits(t[n..], budget - n);
      assert t == t[..n] + t[n..];
    }
  }

  /** What the tab model lets through: exactly the short clean texts are left alone. */
  lemma CanonicalTitlesAreFixed(t: Text)
    ensures CanonicalTitle(t) == Some(t) <==> |t| <= MaxTitle && IsClean(t)
  {
    if Paired(t) {
      KeptIsPaired(t);
      FitFacts(Kept(t), MaxTitle);
      if |t| <= MaxTitle && IsClean(t) {
        CleanIsKept(t);
        ShortFits(t, MaxTitle);
      }
    }
  }

  /**
   A title that is accepted is a prefix of the text without its control characters,
   all of it unless the 256 units are used up to the last whole character; sanitising
   it again changes nothing.
   */
  lemma TitleIsAFullPrefix(t: Text)
    requires CanonicalTitle(t).Some?
    ensures var r := CanonicalTitle(t).value;
      && |r| <= MaxTitle && IsClean(r) && CanonicalTitle(r) == Some(r)
      && |r| <= |Kept(t)| && r == Kept(t)[..|r|]
      && (r != Kept(t) ==> |r| >= MaxTitle - 1)
  {
    KeptIsPaired(t);
    FitFacts(Kept(t), MaxTitle);
    CanonicalTitlesAreFixed(CanonicalTitle(t).value);
  }

  /** A title the worker accepts passes the Host's sanitiser and then the tab model's unchanged. */
  lemma SanitisersAgree(t: Text)
    requires CanonicalPageTitle(t).Some?
    ensures var r := CanonicalPageTitle(t).value;
      r != [] && CanonicalPageTitle(r) == Some(r) && CanonicalTitle(r) == Some(r)
  {
    TitleIsAFullPrefix(t);
    KeptIsPaired(t);
    var r := CanonicalTitle(t).value;
    assert forall u <- r :: u in Kept(t);
  }

  /** Which titles a page can have at all. */
  lemma PageTitleIsRefusedExactlyWhen(t: Text)
    ensures CanonicalPageTitle(t).None? <==>
              || |t| > MaxRawTitle || !Paired(t) || (exists u <- t :: IsAngle(u))
              || (forall i :: 0 <= i < |t| ==> IsDropped(t[i]))
  {
    if |t| <= MaxRawTitle && Paired(t) && t != [] {
      KeptIsPaired(t);
      FitFacts(Kept(t), MaxTitle);
      EmptyExactlyWhenAllDropped(t);
    }
  }

  lemma {:induction false} EmptyExactlyWhenAllDropped(t: Text)
    requires Paired(t)
    ensures Kept(t) == [] <==> forall i :: 0 <= i < |t| ==> IsDropped(t[i])
  {
    if t != [] {
      if IsHigh(t[0]) {
        assert !IsDropped(t[0]);
      } else {
        EmptyExactlyWhenAllDropped(t[1..]);
        assert forall i :: 1 <= i < |t| ==> t[i] == t[1..][i - 1];
        assert forall i :: 0 <= i < |t[1..]| ==> t[1..][i] == t[i + 1];
      }
    }
  }

  // ---- The loops -----------------------------------------------------------------------------

  /** What the loop will return when `rest` is still to be read. */
  ghost function Outcome(rest: Text, result: Text, complete: bool): Option<Text>
    requires |result| <= MaxTitle
  {
    if !Paired(rest) then None
    else
      KeptIsPaired(rest);
      Some(result + if complete then [] else Fit(Kept(rest), MaxTitle - |result|))
  }

  /** One whole character `c` at the front of what is kept. */
  lemma Onward(result: Text, c: Text, kept: Text, after: Text)
    requires Paired(kept) && Paired(after) && c != [] && |c| == (if IsHigh(c[0]) then 2 else 1) && |c| <= |kept| && |result| <= MaxTitle
    requires kept[..|c|] == c && kept[|c|..] == after
    ensures |result| + |c| <= MaxTitle ==>
              result + Fit(kept, MaxTitle - |result|) == (result + c) + Fit(after, MaxTitle - |result + c|)
    ensures |result| + |c| == MaxTitle ==> Fit(after, 0) == [] && (result + c) + [] == result + c
    ensures |result| + |c| > MaxTitle ==> Fit(kept, MaxTitle - |result|) == [] && result + [] == result
  {
    assert c[0] == kept[0];
    if |result| + |c| > MaxTitle {
      assert result + [] == result;
    } else {
      var left := MaxTitle - |result|;
      assert |result + c| == |result| + |c|;
      NothingInNothing(after);
      var more := Fit(after, left - |c|);
      assert Fit(kept, left) == c + more;
      hide Fit;
      assert result + (c + more) == (result + c) + more;
      assert (result + c) + [] == result + c;
    }
  }

  lemma NothingInNothing(t: Text)
    requires Paired(t)
    ensures Fit(t, 0) == []
  {}

  /** A surrogate pair is appended whole, or ends the title. */
  lemma PairStep(rest: Text, result: Text, complete: bool)
    requires |result| <= MaxTitle && |rest| >= 2 && IsHigh(rest[0]) && IsLow(rest[1])
    requires complete <== |result| == MaxTitle
    ensures var fits := !complete && |result| + 2 <= MaxTitle;
      var result' := if fits then result + rest[..2] else result;
      Outcome(rest, result, complete) == Outcome(rest[2..], result', !fits || |result'| == MaxTitle)
  {
    if Paired(rest) {
      KeptIsPaired(rest[2..]);
      assert Kept(rest)[..2] == rest[..2] && Kept(rest)[2..] == Kept(rest[2..]);
      KeptIsPaired(rest);
      Onward(result, rest[..2], Kept(rest), Kept(rest[2..]));
    }
  }

  lemma SingleStep(rest: Text, result: Text, complete: bool)
    requires |result| <= MaxTitle && rest != [] && !IsHigh(rest[0]) && !IsLow(rest[0])
    requires complete <== |result| == MaxTitle
    ensures var kept := !complete && !IsDropped(rest[0]);
      var result' := if kept then result + rest[..1] else result;
      Outcome(rest, result, complete) == Outcome(rest[1..], result', complete || (kept && |result'| == MaxTitle))
  {
    if Paired(rest) {
      KeptIsPaired(rest[1..]);
      KeptIsPaired(rest);
      if !IsDropped(rest[0]) {
        assert Kept(rest)[..1] == rest[..1] && Kept(rest)[1..] == Kept(rest[1..]);
        Onward(result, rest[..1], Kept(rest), Kept(rest[1..]));
      }
    }
  }

  /** One pass over the raw title; `page` says whether markup is refused, as for a page's title. */
  method Sanitise(t: Text, page: bool) returns (r: Option<Text>)
    ensures r == if page then CanonicalPageTitle(t) else CanonicalTitle(t)
  {
    hide Outcome;
    if (page && t == []) || |t| > MaxRawTitle { return None; }
    var result: Text, complete, index := [], false, 0;
    Started(t);
    while index < |t|
      invariant 0 <= index <= |t| && |result| <= MaxTitle && (complete <== |result| == MaxTitle)
      invariant page ==> forall i :: 0 <= i < index ==> !IsAngle(t[i])
      invariant Outcome(t[index..], result, complete) == CanonicalTitle(t)
    {
      ghost var rest := t[index..];
      var value := t[index];
      if IsHigh(value) {
        if index + 1 >= |t| || !IsLow(t[index + 1]) {
          Unpaired(rest, result, complete);
          return None;
        }
        PairStep(rest, result, complete);
        assert t[index + 2..] == rest[2..] && rest[..2] == [value, t[index + 1]];
        if !complete && |result| + 2 <= MaxTitle {
          result := result + [value, t[index + 1]];
          complete := |result| == MaxTitle;
        } else if !complete {
          complete := true;
        }
        index := index + 2;
        continue;
      }
      if IsLow(value) { Unpaired(rest, result, complete); }
      if IsLow(value) || (page && IsAngle(value)) { return None; }
      SingleStep(rest, result, complete);
      assert t[index + 1..] == rest[1..] && rest[..1] == [value];
      index := index + 1;
      if IsDropped(value) { continue; }
      if !complete {
        result := result + [value];
        complete := |result| == MaxTitle;
      }
    }
    Finished(t[index..], result, complete);
    if page && result == [] { return None; }
    return Some(result);
  }

  lemma Started(t: Text)
    requires |t| <= MaxRawTitle
    ensures Outcome(t, [], false) == CanonicalTitle(t) && t[0..] == t
  {
    if Paired(t) {
      KeptIsPaired(t);
      assert [] + Fit(Kept(t), MaxTitle) == Fit(Kept(t), MaxTitle);
    }
  }

  lemma Unpaired(rest: Text, result: Text, complete: bool)
    requires |result| <= MaxTitle && rest != [] && (IsLow(rest[0]) || (IsHigh(rest[0]) && (|rest| == 1 || !IsLow(rest[1]))))
    ensures Outcome(rest, result, complete).None?
  {}

  lemma Finished(rest: Text, result: Text, complete: bool)
    requires |result| <= MaxTitle && rest == []
    ensures Outcome(rest, result, complete) == Some(result)
  {
    assert result + [] == result;
  }
}
