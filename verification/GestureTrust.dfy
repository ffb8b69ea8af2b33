/**
 Where gesture evidence comes from and where it goes.  What a step observes, clears,
 grants and swallows is read off the state before it and the input itself.
 */
module GestureTrust {
  import opened Common
  import opened GestureRouter

  // ---- Trusted input ---------------------------------------------------------------------

  /** The active binding's token is not revoked when it is acquired, nor when the observation is published. */
  predicate Admits(r: Router, b: nat, gate: Gate) {
    b in r.objects && r.objects[b].token !in r.revoked && gate == Open
  }

  /** A press that reaches the active binding: neither swallowed nor a modifier. */
  predicate Reaches(r: Router, a: Action) {
    a.Key? && a.down && a.key !in r.suppressed && !a.modifier
  }

  /** The binding and the time of a trusted input: a click into its window, or a key press that no command takes. */
  predicate Trusted(r: Router, a: Action, b: nat, input: Tick) {
    && r.active == Some(b) && input != 0
    && ((a.Mouse? && a.trustedTarget && a.input == input && Admits(r, b, a.gate))
        || (Reaches(r, a) && a.command.None? && a.trusted && a.stillTrusted && a.input == input && Admits(r, b, a.gate)))
  }

  /** An input that shows the active binding is no longer where the user acts, or whose token is gone. */
  predicate Betrays(r: Router, a: Action, b: nat) {
    && r.active == Some(b) && b in r.objects
    && ((a.Mouse? && a.input != 0 && (!a.trustedTarget || !Acquires(r, r.objects[b].token, a.gate)))
        || (Reaches(r, a) && !a.trusted)
        || (Reaches(r, a) && a.trusted && a.command.Some?
            && (!a.stillTrusted || !Publishes(r, r.objects[b].token, a.gate) || !a.posts))
        || (Reaches(r, a) && a.trusted && a.command.None? && a.input != 0
            && (!a.stillTrusted || !Acquires(r, r.objects[b].token, a.gate))))
  }

  predicate Matches(r: Router, authority: Authority, b: nat) {
    authority.tab in r.bindings && r.bindings[authority.tab] == b && b in r.objects && r.objects[b].authority == authority
  }

  /** Unspent evidence of `b` that is fresh at `now`. */
  predicate Fresh(r: Router, b: nat, now: Tick) {
    && b in r.objects && r.objects[b].lastTrusted != 0 && r.objects[b].lastTrusted != r.objects[b].lastGranted
    && now != 0 && Age(now, r.objects[b].lastTrusted) <= MaxGestureAge
  }

  /** The request names the active binding and is granted. */
  predicate Grants(r: Router, a: Action, b: nat) {
    && a.CallIssueGrant? && r.active == Some(b) && b in r.objects && r.objects[b].authority == a.authority
    && Fresh(r, b, a.now) && a.valid && a.stillValid && a.storeIssues && Admits(r, b, a.gate)
  }

  /** A deferred command of `b` that still stands. */
  predicate Fires(r: Router, a: Action, b: nat) {
    && a.DispatchCommand? && r.queue != [] && r.queue[0].binding == b
    && a.valid && Admits(r, b, a.gate) && r.active == Some(b) && r.epoch == r.queue[0].epoch
  }

  predicate Defers(r: Router, a: Action, b: nat) {
    Reaches(r, a) && r.active == Some(b) && a.command.Some? && a.trusted && a.stillTrusted && a.posts && Admits(r, b, a.gate)
  }

  predicate IsUse(e: Event) { !IsSwitch(e) }

  function Filter(log: seq<Event>, p: Event -> bool): seq<Event> {
    if log == [] then []
    else Filter(log[..|log| - 1], p) + (if p(log[|log| - 1]) then [log[|log| - 1]] else [])
  }

  lemma FilterSnoc(log: seq<Event>, e: Event, p: Event -> bool)
    ensures Filter(log + [e], p) == Filter(log, p) + if p(e) then [e] else []
  {
    assert (log + [e])[..|log|] == log;
  }

  /** What the step adds to the log besides activations and deactivations. */
  function Uses(r: Router, a: Action): seq<Event> {
    if r.active.None? then []
    else
      var b := r.active.value;
      if (a.Mouse? || a.Key?) && Trusted(r, a, b, a.input) then [Observed(b, a.input)]
      else if Grants(r, a, b) then [Granted(b, r.objects[b].lastTrusted, a.now)]
      else if Defers(r, a, b) then [Queued(b)]
      else if Fires(r, a, b) then [Fired(b, r.queue[0].queuedAt)]
      else []
  }

  lemma ClearActiveUses(r: Router)
    requires Known(r)
    ensures Filter(ClearActive(r).log, IsUse) == Filter(r.log, IsUse)
  {
    if r.active.Some? { FilterSnoc(r.log, Deactivated(r.active.value), IsUse); }
  }

  lemma ClearActiveKeeps(r: Router)
    requires Known(r)
    ensures var c := ClearActive(r);
      c == r.(objects := c.objects, active := None, epoch := c.epoch, log := c.log) && c.objects.Keys == r.objects.Keys
    ensures forall b <- r.objects ::
              ClearActive(r).objects[b] == if r.active == Some(b) then NoEvidence(r.objects[b]) else r.objects[b]
  {}

  function NoEvidence(x: Binding): Binding { x.(lastTrusted := 0, lastGranted := 0) }

  lemma ActivateUses(r: Router, authority: Authority, storeRevokes: bool, gate: Gate)
    requires Known(r)
    ensures Filter(Activate(r, authority, storeRevokes, gate).0.log, IsUse) == Filter(r.log, IsUse)
  {
    ClearActiveUses(r);
    ClearActiveKeeps(r);
    hide Filter, ClearActive, ClearEvidence;
    if authority.tab in r.bindings {
      FilterSnoc(ClearActive(r).log, Activated(r.bindings[authority.tab]), IsUse);
    }
  }

  lemma UnregisterUses(r: Router, authority: Authority)
    requires Known(r)
    ensures Filter(Unregister(r, authority).log, IsUse) == Filter(r.log, IsUse)
  {
    ClearActiveUses(r);
  }

  /**
   The log gains an observation exactly in the step of a trusted input of the active
   binding, a grant exactly if unspent evidence is fresh and nothing speaks against it,
   and so for commands that are deferred and fired.
   */
  lemma LogGainsExactly(r: Router, a: Action)
    requires Known(r)
    ensures Filter(Next(r, a).log, IsUse) == Filter(r.log, IsUse) + Uses(r, a)
  {
    hide Filter, ClearActive, Unregister, Register, Activate, TokenReused;
    assert Filter(r.log, IsUse) + [] == Filter(r.log, IsUse);
    match a
    case CallRegister(authority, token, valid, hooks, gate, name) => RegisterUses(r, authority, token, valid, hooks, gate, name);
    case CallUnregister(authority) => UnregisterUses(r, authority);
    case CallActivate(authority, storeRevokes, gate) => ActivateUses(r, authority, storeRevokes, gate);
    case CallDeactivate => ClearActiveUses(r);
    case Revoke(_) =>
    case _ =>
      if Uses(r, a) != [] { FilterSnoc(r.log, Uses(r, a)[0], IsUse); }
  }

  lemma RegisterUses(r: Router, authority: Authority, token: nat, valid: bool, hooks: bool, gate: Gate, name: nat)
    requires Known(r)
    ensures Filter(Register(r, authority, token, valid, hooks, gate, name).0.log, IsUse) == Filter(r.log, IsUse)
  {
    if authority.tab in r.bindings { UnregisterUses(r, r.objects[r.bindings[authority.tab]].authority); }
    hide Filter, Unregister, TokenReused;
  }

  // ---- Where evidence goes -------------------------------------------------------------------

  /** Steps after which `b` has no evidence left. */
  predicate Clears(r: Router, a: Action, b: nat) {
    match a
    case CallRegister(authority, token, valid, hooks, _, name) =>
      && name !in r.objects && valid && hooks && Known(r) && !TokenReused(r, authority, token)
      && authority.tab in r.bindings && r.bindings[authority.tab] == b && r.objects[b].token != token
    case CallUnregister(authority) => Matches(r, authority, b)
    case CallActivate(authority, _, gate) =>
      if r.active == Some(b) then !(Matches(r, authority, b) && Admits(r, b, gate)) else Matches(r, authority, b)
    case CallDeactivate => r.active == Some(b)
    case CallIssueGrant(authority, _, _, _, _, _) =>
      r.active == Some(b) && b in r.objects && r.objects[b].authority == authority && !Grants(r, a, b)
    case DispatchCommand(_, _) => r.queue != [] && r.queue[0].binding == b && !Fires(r, a, b)
    case Revoke(_) => false
    case _ => Betrays(r, a, b)
  }

  /** The evidence of `b` after the step; its authority and token never change. */
  function EvidenceAfter(r: Router, a: Action, b: nat): Binding
    requires b in r.objects
  {
    var x := r.objects[b];
    if (a.Mouse? || a.Key?) && Trusted(r, a, b, a.input) then x.(lastTrusted := a.input)
    else if Grants(r, a, b) then x.(lastGranted := x.lastTrusted)
    else if Clears(r, a, b) then NoEvidence(x)
    else x
  }

  lemma UnregisterClears(r: Router, authority: Authority, b: nat)
    requires Known(r) && b in r.objects
    ensures var r' := Unregister(r, authority);
      b in r'.objects && r'.objects[b] == if Matches(r, authority, b) then NoEvidence(r.objects[b]) else r.objects[b]
  {
    ClearActiveKeeps(r);
    hide ClearActive;
  }

  lemma ActivateClears(r: Router, authority: Authority, storeRevokes: bool, gate: Gate, b: nat)
    requires Known(r) && b in r.objects
    ensures var r' := Activate(r, authority, storeRevokes, gate).0;
      && b in r'.objects
      && r'.objects[b] == EvidenceAfter(r, CallActivate(authority, storeRevokes, gate), b)
  {
    ClearActiveKeeps(r);
    hide ClearActive;
  }

  lemma RegisterClears(r: Router, authority: Authority, token: nat, valid: bool, hooks: bool, gate: Gate, name: nat, b: nat)
    requires Known(r) && b in r.objects && name !in r.objects && Placed(r)
    ensures var r' := Register(r, authority, token, valid, hooks, gate, name).0;
      && b in r'.objects
      && r'.objects[b] == EvidenceAfter(r, CallRegister(authority, token, valid, hooks, gate, name), b)
  {
    if authority.tab in r.bindings { UnregisterClears(r, r.objects[r.bindings[authority.tab]].authority, b); }
    hide Unregister;
  }

  /**
   Evidence of every binding after any step: made by its trusted input, spent by its
   grant, cleared by whatever speaks against it, and otherwise untouched.
   */
  lemma EvidenceIsExactly(r: Router, a: Action, b: nat)
    requires Inv(r) && b in r.objects
    ensures b in Next(r, a).objects && Next(r, a).objects[b] == EvidenceAfter(r, a, b)
  {
    assert Known(r) && Placed(r);
    hide Inv, Placed, Unregister, Register, Activate, ClearActive, Clears, Trusted, Grants;
    match a
    case CallRegister(authority, token, valid, hooks, gate, name) =>
      if name in r.objects { NameTaken(r, a, b); } else { RegisterClears(r, authority, token, valid, hooks, gate, name, b); }
    case CallUnregister(authority) =>
      UnregisterClears(r, authority, b);
      CallClears(r, a, b);
    case CallActivate(authority, storeRevokes, gate) => ActivateClears(r, authority, storeRevokes, gate, b);
    case CallDeactivate =>
      ClearActiveKeeps(r);
      CallClears(r, a, b);
    case Key(_, _, _, _, _, _, _, _, _) => KeyClears(r, a, b);
    case _ => InputClears(r, a, b);
  }

  lemma NameTaken(r: Router, a: Action, b: nat)
    requires b in r.objects && a.CallRegister? && a.name in r.objects
    ensures EvidenceAfter(r, a, b) == r.objects[b]
  {}

  lemma CallClears(r: Router, a: Action, b: nat)
    requires b in r.objects && (a.CallUnregister? || a.CallDeactivate?)
    ensures EvidenceAfter(r, a, b)
         == if (if a.CallUnregister? then Matches(r, a.authority, b) else r.active == Some(b)) then NoEvidence(r.objects[b])
            else r.objects[b]
  {}

  lemma KeyClears(r: Router, a: Action, b: nat)
    requires Known(r) && b in r.objects && a.Key?
    ensures b in Next(r, a).objects && Next(r, a).objects[b] == EvidenceAfter(r, a, b)
  {}

  lemma InputClears(r: Router, a: Action, b: nat)
    requires Known(r) && b in r.objects && (a.Mouse? || a.CallIssueGrant? || a.DispatchCommand? || a.Revoke?)
    ensures b in Next(r, a).objects && Next(r, a).objects[b] == EvidenceAfter(r, a, b)
  {}

  /** In particular an untrusted click while `b` is active leaves it without evidence. */
  lemma UntrustedClickClears(r: Router, input: Tick, gate: Gate)
    requires Inv(r) && r.active.Some? && input != 0
    ensures var r' := Next(r, Mouse(input, false, gate));
      r'.objects[r.active.value] == NoEvidence(r.objects[r.active.value]) && r'.log == r.log
  {
    EvidenceIsExactly(r, Mouse(input, false, gate), r.active.value);
  }

  // ---- Keys and bindings ------------------------------------------------------------------------

  /** A press that starts a command of the active binding. */
  predicate Commands(r: Router, a: Action) {
    Reaches(r, a) && r.active.Some? && a.command.Some? && a.trusted
  }

  /**
   From the press that starts a command to its release the key is suppressed, and these
   are the events that are swallowed: the page sees neither of them.
   */
  lemma CommandKeysAreSwallowed(r: Router, a: Action)
    requires Known(r) && a.Key?
    ensures var (r', swallowed) :=
      RouteKeyboard(r, a.key, a.modifier, a.down, a.input, a.command, a.trusted, a.stillTrusted, a.gate, a.posts);
      && r' == Next(r, a)
      && r'.suppressed == (if !a.down then r.suppressed - {a.key} else if Commands(r, a) then r.suppressed + {a.key} else r.suppressed)
      && (swallowed <==> a.key in r.suppressed + r'.suppressed)
  {}

  /** Which binding is active after the step. */
  function ActiveNext(r: Router, a: Action): Option<nat>
    requires Known(r)
  {
    match a
    case CallRegister(authority, token, valid, hooks, _, name) =>
      if r.active.Some? && Clears(r, a, r.active.value) then None else r.active
    case CallUnregister(authority) => if r.active.Some? && Matches(r, authority, r.active.value) then None else r.active
    case CallActivate(authority, storeRevokes, gate) =>
      if authority.tab in r.bindings && Matches(r, authority, r.bindings[authority.tab])
         && Admits(r, r.bindings[authority.tab], gate) && (r.active == Some(r.bindings[authority.tab]) || storeRevokes)
      then Some(r.bindings[authority.tab])
      else None
    case CallDeactivate => None
    case _ => r.active
  }

  /** A binding is active exactly from an activation that its open token admits until anything else is activated or it goes. */
  lemma ActiveIsExactly(r: Router, a: Action)
    requires Inv(r)
    ensures Next(r, a).active == ActiveNext(r, a)
    ensures a.CallActivate? ==>
              (Activate(r, a.authority, a.storeRevokes, a.gate).1
               <==> ActiveNext(r, a).Some?)
  {
    hide Backed, Remembers, TokensApart, GrantsFounded, FiresFounded, ActiveAfter;
    ClearActiveKeeps(r);
    match a
    case CallRegister(authority, token, valid, hooks, gate, name) =>
      if authority.tab in r.bindings { UnregisterActive(r, r.objects[r.bindings[authority.tab]].authority); }
      hide Unregister, ClearActive;
    case CallUnregister(authority) =>
      UnregisterActive(r, authority);
      hide Unregister, ClearActive;
    case _ =>
      hide ClearActive;
  }

  lemma UnregisterActive(r: Router, authority: Authority)
    requires Known(r) && Placed(r)
    ensures Unregister(r, authority).active == if r.active.Some? && Matches(r, authority, r.active.value) then None else r.active
  {
    ClearActiveKeeps(r);
    hide ClearActive;
  }

  /** The tokens a step revokes: those of bindings that go, and any the outside revokes. */
  function Revokes(r: Router, a: Action): set<nat>
    requires Known(r)
  {
    match a
    case Revoke(token) => {token}
    case CallUnregister(authority) =>
      if authority.tab in r.bindings && Matches(r, authority, r.bindings[authority.tab]) then {r.objects[r.bindings[authority.tab]].token} else {}
    case CallRegister(authority, _, _, _, _, _) =>
      if authority.tab in r.bindings && Clears(r, a, r.bindings[authority.tab]) then {r.objects[r.bindings[authority.tab]].token} else {}
    case _ => {}
  }

  lemma RevokedIsExactly(r: Router, a: Action)
    requires Inv(r)
    ensures Next(r, a).revoked == r.revoked + Revokes(r, a)
  {
    assert Known(r) && Placed(r);
    hide Inv, TokenReused;
    ClearActiveKeeps(r);
    match a
    case CallUnregister(authority) =>
      if authority.tab in r.bindings { UnregisterForgets(r, authority.tab); }
      hide Unregister, ClearActive;
      if !(authority.tab in r.bindings && Matches(r, authority, r.bindings[authority.tab])) { UnregisterNothing(r, authority); }
    case CallRegister(authority, token, valid, hooks, gate, name) =>
      if authority.tab in r.bindings { UnregisterForgets(r, authority.tab); }
      hide Unregister, ClearActive;
    case _ => hide ClearActive;
  }

  lemma UnregisterNothing(r: Router, authority: Authority)
    requires Known(r) && !(authority.tab in r.bindings && Matches(r, authority, r.bindings[authority.tab]))
    ensures Unregister(r, authority) == r
  {}

  /** A binding is registered exactly if it is well formed, its token serves nobody else and, unless it is there already, is open. */
  lemma RegistersExactlyWhen(r: Router, authority: Authority, token: nat, valid: bool, hooks: bool, gate: Gate, name: nat)
    requires Inv(r) && name !in r.objects
    ensures var (r', ok) := Register(r, authority, token, valid, hooks, gate, name);
      var there := authority.tab in r.bindings && r.objects[r.bindings[authority.tab]].authority == authority
                   && r.objects[r.bindings[authority.tab]].token == token;
      && (ok <==> valid && hooks && !TokenReused(r, authority, token) && (there || (token !in r.revoked && gate == Open)))
      && (ok && there ==> r' == r)
      && (ok && !there ==>
            && r'.bindings == r.bindings[authority.tab := name]
            && name in r'.objects && r'.objects[name] == Binding(authority, token, 0, 0)
            && (authority.tab in r.bindings ==> r.objects[r.bindings[authority.tab]].token in r'.revoked))
  {
    hide Backed, Remembers, GrantsFounded, FiresFounded, ActiveAfter;
    if authority.tab in r.bindings { UnregisterForgets(r, authority.tab); }
    hide Unregister;
  }

  lemma UnregisterForgets(r: Router, tab: nat)
    requires Known(r) && tab in r.bindings
    ensures var b := r.bindings[tab];
      var r' := Unregister(r, r.objects[b].authority);
      && (r.objects[b].authority.tab == tab ==>
            r'.bindings == r.bindings - {tab} && r'.revoked == r.revoked + {r.objects[b].token} && r'.objects.Keys == r.objects.Keys)
  {
    ClearActiveKeeps(r);
    hide ClearActive;
  }

  /** What the calls return says what happened. */
  lemma ResultsAreTruthful(r: Router, a: Action)
    requires Known(r)
    ensures a.CallIssueGrant? ==>
              (IssueGrant(r, a.authority, a.now, a.valid, a.stillValid, a.gate, a.storeIssues).1 <==> exists b :: Grants(r, a, b))
    ensures a.Mouse? ==> (ObserveMouse(r, a.input, a.trustedTarget, a.gate).1 <==> exists b :: Trusted(r, a, b, a.input))
    ensures a.DispatchCommand? ==>
              Dispatch(r, a.valid, a.gate).1 == if r.queue != [] && Fires(r, a, r.queue[0].binding) then Some(r.queue[0].command) else None
  {
    if r.active.Some? { assert Grants(r, a, r.active.value) || !Grants(r, a, r.active.value); }
    if r.active.Some? && a.Mouse? { assert Trusted(r, a, r.active.value, a.input) || !Trusted(r, a, r.active.value, a.input); }
  }

  // ---- Every grant goes back to a trusted input ---------------------------------------------------

  lemma {:induction false} FilterAppend(s: seq<Event>, t: seq<Event>, p: Event -> bool)
    ensures Filter(s + t, p) == Filter(s, p) + Filter(t, p)
    decreases t
  {
    if t == [] {
      assert s + t == s;
    } else {
      var (front, last) := (t[..|t| - 1], t[|t| - 1]);
      FilterAppend(s, front, p);
      assert s + t == s + front + [last];
      FilterSnoc(s + front, last, p);
    }
  }

  lemma {:induction false} FilterKeeps(s: seq<Event>, e: Event, p: Event -> bool)
    requires e in s && p(e)
    ensures e in Filter(s, p)
    decreases s
  {
    if s[|s| - 1] != e { FilterKeeps(s[..|s| - 1], e, p); }
  }

  lemma LogGrows(r: Router, a: Action)
    ensures r.log <= Next(r, a).log
  {
    hide TokenReused;
  }

  /** Whatever is newly observed comes from a trusted input. */
  lemma NewObservation(r: Router, a: Action, o: nat)
    requires Known(r) && |r.log| <= o < |Next(r, a).log| && Next(r, a).log[o].Observed?
    ensures Trusted(r, a, Next(r, a).log[o].binding, Next(r, a).log[o].input)
  {
    hide Next, Filter, Trusted, Grants, Defers, Fires;
    var log := Next(r, a).log;
    LogGrows(r, a);
    LogGainsExactly(r, a);
    var gain := log[|r.log|..];
    assert log == r.log + gain && gain[o - |r.log|] == log[o];
    FilterAppend(r.log, gain, IsUse);
    FilterKeeps(gain, log[o], IsUse);
    var before := Filter(r.log, IsUse);
    assert (before + Uses(r, a))[|before|..] == Uses(r, a) && (before + Filter(gain, IsUse))[|before|..] == Filter(gain, IsUse);
    assert log[o] in Uses(r, a);
  }

  /** Step `n` of the run is the trusted input of `b` at time `input` that made entry `o` of the log. */
  predicate MadeBy(actions: seq<Action>, n: nat, o: nat, b: nat, input: Tick) {
    && n < |actions| && Trusted(Run(InitialRouter, actions[..n]), actions[n], b, input)
    && |Run(InitialRouter, actions[..n]).log| <= o < |Run(InitialRouter, actions[..n + 1]).log|
  }

  lemma LastStep(actions: seq<Action>, n: nat)
    requires n < |actions|
    ensures Run(InitialRouter, actions[..n + 1]) == Next(Run(InitialRouter, actions[..n]), actions[n])
  {
    assert actions[..n + 1] == actions[..n] + [actions[n]];
    IterateAppend(Next, InitialRouter, actions[..n], [actions[n]]);
    assert [actions[n]][1..] == [];
  }

  /** Every observation in the log of a run was made by a trusted input. */
  lemma {:induction false} ObservationsAreTrusted(actions: seq<Action>, n: nat, o: nat) returns (i: nat)
    requires n <= |actions| && o < |Run(InitialRouter, actions[..n]).log| && Run(InitialRouter, actions[..n]).log[o].Observed?
    ensures var e := Run(InitialRouter, actions[..n]).log[o]; MadeBy(actions, i, o, e.binding, e.input)
    decreases n
  {
    hide Next, Trusted, Inv, Known;
    if n > 0 {
      LastStep(actions, n - 1);
      var r := Run(InitialRouter, actions[..n - 1]);
      LogGrows(r, actions[n - 1]);
      if o < |r.log| {
        i := ObservationsAreTrusted(actions, n - 1, o);
      } else {
        ReachedIsKnown(actions[..n - 1]);
        NewObservation(r, actions[n - 1], o);
        i := n - 1;
      }
    }
  }

  lemma ReachedIsKnown(actions: seq<Action>)
    ensures Known(Run(InitialRouter, actions))
  {
    RunInv(InitialRouter, actions);
  }

  /**
   Every grant goes back to a trusted input of its binding: a click into its window or a
   key press, made since its latest activation and at most a second before, while the
   binding was active and its token open, and not granted upon before.
   */
  lemma EveryGrantHasATrustedInput(actions: seq<Action>, g: nat)
    requires g < |Run(InitialRouter, actions).log| && Run(InitialRouter, actions).log[g].Granted?
    ensures var log := Run(InitialRouter, actions).log;
      && Age(log[g].now, log[g].input) <= MaxGestureAge
      && exists o, n :: Unspent(log[..g], log[g].binding, log[g].input, o) && MadeBy(actions, n, o, log[g].binding, log[g].input)
  {
    EveryGrantHasItsObservation(actions, g);
    hide Run, MadeBy;
    var log := Run(InitialRouter, actions).log;
    var o: nat :| Unspent(log[..g], log[g].binding, log[g].input, o);
    assert log[o] == log[..g][o] == Observed(log[g].binding, log[g].input);
    assert actions[..|actions|] == actions;
    var n := ObservationsAreTrusted(actions, |actions|, o);
  }
}
