/**
 Evidence that a user acted: one-use observations of input, a clock that wraps, and
 an activation epoch that guards commands dispatched later.  Bindings are named by
 number; `log` is the history of what happened to them.
 */
module GestureRouter {
  import opened Common

  /** Milliseconds of a 32-bit clock. */
  type Tick = t: nat | t < 0x1_0000_0000

  const MaxGestureAge: nat := 1000

  /** How long ago `input` was, as the subtraction of unsigned 32-bit numbers gives it. */
  function Age(now: Tick, input: Tick): nat {
    (now as int - input as int) % 0x1_0000_0000
  }

  datatype Authority = Authority(tab: nat, incarnation: nat)

  datatype Binding = Binding(authority: Authority, token: nat, lastTrusted: Tick, lastGranted: Tick)

  /** A browser command waiting for the event loop; `queuedAt` is its place in the log. */
  datatype Deferred = Deferred(binding: nat, command: nat, epoch: nat, queuedAt: nat)

  datatype Event =
    | Activated(binding: nat)
    | Deactivated(binding: nat)
    | Observed(binding: nat, input: Tick)
    | Granted(binding: nat, input: Tick, now: Tick)
    | Queued(binding: nat)
    | Fired(binding: nat, queuedAt: nat)

  datatype Router = Router(
    bindings: map<nat, nat>,
    objects: map<nat, Binding>,
    active: Option<nat>,
    epoch: nat,
    suppressed: set<int>,
    queue: seq<Deferred>,
    revoked: set<nat>,
    log: seq<Event>)

  const InitialRouter := Router(map[], map[], None, 0, {}, [], {}, [])

  /** An admission token is a latch: once revoked it stays so.  It may be revoked between acquiring and publishing. */
  datatype Gate = Refused | RevokedMeanwhile | Open

  predicate Acquires(r: Router, token: nat, gate: Gate) { token !in r.revoked && gate != Refused }

  predicate Publishes(r: Router, token: nat, gate: Gate) { token !in r.revoked && gate == Open }

  function Put(r: Router, b: nat, x: Binding): Router {
    r.(objects := r.objects[b := x])
  }

  function Logged(r: Router, e: Event): Router {
    r.(log := r.log + [e])
  }

  function ClearEvidence(r: Router, b: nat): Router
    requires b in r.objects
  {
    Put(r, b, r.objects[b].(lastTrusted := 0, lastGranted := 0))
  }

  function ClearActive(r: Router): Router
    requires r.active.Some? ==> r.active.value in r.objects
  {
    if r.active.None? then r
    else ClearEvidence(Logged(r.(active := None, epoch := r.epoch + 1), Deactivated(r.active.value)), r.active.value)
  }

  predicate Known(r: Router) {
    && (r.active.Some? ==> r.active.value in r.objects)
    && (forall tab <- r.bindings :: r.bindings[tab] in r.objects)
    && (forall d <- r.queue :: d.binding in r.objects)
  }

  function Unregister(r: Router, authority: Authority): (r': Router)
    requires Known(r)
  {
    var tab := authority.tab;
    if tab !in r.bindings || r.objects[r.bindings[tab]].authority != authority then r
    else
      var b := r.bindings[tab];
      var cleared := if r.active == Some(b) then ClearActive(r) else ClearEvidence(r, b);
      cleared.(revoked := cleared.revoked + {r.objects[b].token}, bindings := cleared.bindings - {tab})
  }

  /** The token already admits another authority. */
  predicate TokenReused(r: Router, authority: Authority, token: nat)
    requires Known(r)
  {
    exists tab <- r.bindings :: r.objects[r.bindings[tab]].token == token
                                && (r.objects[r.bindings[tab]].authority != authority || tab != authority.tab)
  }

  /**
   `valid` says whether authority, token and store are well formed, `hooks` whether the
   input observer is or can be installed; `name` names the new binding object.
   */
  function Register(r: Router, authority: Authority, token: nat, valid: bool, hooks: bool, gate: Gate, name: nat): (Router, bool)
    requires Known(r)
  {
    var tab := authority.tab;
    if !valid || !hooks || TokenReused(r, authority, token) then (r, false)
    else if tab in r.bindings && r.objects[r.bindings[tab]].authority == authority && r.objects[r.bindings[tab]].token == token
    then (r, true)
    else
      var r1 := if tab in r.bindings then Unregister(r, r.objects[r.bindings[tab]].authority) else r;
      if !Publishes(r1, token, gate) then (r1, false)
      else (Put(r1, name, Binding(authority, token, 0, 0)).(bindings := r1.bindings[tab := name]), true)
  }

  /** `storeRevokes` says whether the grant store revokes what is outstanding. */
  function Activate(r: Router, authority: Authority, storeRevokes: bool, gate: Gate): (Router, bool)
    requires Known(r)
  {
    var tab := authority.tab;
    if tab !in r.bindings || r.objects[r.bindings[tab]].authority != authority then (ClearActive(r), false)
    else
      var b := r.bindings[tab];
      var admitted := Publishes(r, r.objects[b].token, gate);
      if r.active == Some(b) then if admitted then (r, true) else (ClearActive(r), false)
      else
        var cleared := ClearEvidence(ClearActive(r), b);
        if !storeRevokes || !admitted then (cleared, false)
        else (Logged(cleared.(active := Some(b), epoch := cleared.epoch + 1), Activated(b)), true)
  }

  /** `valid` and `stillValid` are the two looks at the system's focus and windows. */
  function IssueGrant(r: Router, authority: Authority, now: Tick, valid: bool, stillValid: bool, gate: Gate, storeIssues: bool)
    : (Router, bool)
    requires Known(r)
  {
    if r.active.None? || r.objects[r.active.value].authority != authority then (r, false)
    else
      var b := r.active.value;
      var x := r.objects[b];
      if !valid || now == 0 || x.lastTrusted == 0 || x.lastTrusted == x.lastGranted || Age(now, x.lastTrusted) > MaxGestureAge
         || !stillValid || !Publishes(r, x.token, gate) || !storeIssues
      then (ClearEvidence(r, b), false)
      else (Logged(Put(r, b, x.(lastGranted := x.lastTrusted)), Granted(b, x.lastTrusted, now)), true)
  }

  function Observe(r: Router, b: nat, input: Tick): Router
    requires b in r.objects
  {
    Logged(Put(r, b, r.objects[b].(lastTrusted := input)), Observed(b, input))
  }

  /** The result says whether the key is swallowed. */
  function RouteKeyboard(r: Router, key: int, modifier: bool, down: bool, input: Tick, command: Option<nat>,
                         trusted: bool, stillTrusted: bool, gate: Gate, posts: bool): (Router, bool)
    requires Known(r)
  {
    if !down then if key in r.suppressed then (r.(suppressed := r.suppressed - {key}), true) else (r, false)
    else if key in r.suppressed then (r, true)
    else if modifier || r.active.None? then (r, false)
    else
      var b := r.active.value;
      var token := r.objects[b].token;
      if command.Some? && trusted then
        var s := r.(suppressed := r.suppressed + {key});
        if !stillTrusted || !Publishes(r, token, gate) || !posts then (ClearEvidence(s, b), true)
        else
          (Logged(s.(queue := s.queue + [Deferred(b, command.value, s.epoch, |s.log|)]), Queued(b)), true)
      else if !trusted then (ClearEvidence(r, b), false)
      else if input == 0 then (r, false)
      else if !Acquires(r, token, gate) || !stillTrusted then (ClearEvidence(r, b), false)
      else if gate == Open then (Observe(r, b, input), false)
      else (r, false)
  }

  function ObserveMouse(r: Router, input: Tick, trustedTarget: bool, gate: Gate): (Router, bool)
    requires Known(r)
  {
    if r.active.None? || input == 0 then (r, false)
    else
      var b := r.active.value;
      if !trustedTarget || !Acquires(r, r.objects[b].token, gate) then (ClearEvidence(r, b), false)
      else if gate == Open then (Observe(r, b, input), true)
      else (r, false)
  }

  /** The first deferred command is dispatched, if nothing has changed since its keystroke. */
  function Dispatch(r: Router, valid: bool, gate: Gate): (Router, Option<nat>)
    requires Known(r)
  {
    if r.queue == [] then (r, None)
    else
      var d := r.queue[0];
      var s := r.(queue := r.queue[1..]);
      if !valid || !Publishes(r, r.objects[d.binding].token, gate) || r.active != Some(d.binding) || r.epoch != d.epoch
      then (ClearEvidence(s, d.binding), None)
      else (Logged(s, Fired(d.binding, d.queuedAt)), Some(d.command))
  }

  datatype Action =
    | CallRegister(authority: Authority, token: nat, valid: bool, hooks: bool, gate: Gate, name: nat)
    | CallUnregister(authority: Authority)
    | CallActivate(authority: Authority, storeRevokes: bool, gate: Gate)
    | CallDeactivate
    | CallIssueGrant(authority: Authority, now: Tick, valid: bool, stillValid: bool, gate: Gate, storeIssues: bool)
    | Key(key: int, modifier: bool, down: bool, input: Tick, command: Option<nat>, trusted: bool, stillTrusted: bool,
          gate: Gate, posts: bool)
    | Mouse(input: Tick, trustedTarget: bool, gate: Gate)
    | DispatchCommand(valid: bool, gate: Gate)
    | Revoke(token: nat)

  /** One step; a new binding needs a name that is not in use. */
  function Next(r: Router, a: Action): Router {
    if Known(r) then Take(r, a) else r
  }

  function Take(r: Router, a: Action): Router
    requires Known(r)
  {
    match a
    case CallRegister(authority, token, valid, hooks, gate, name) =>
      if name in r.objects then r else Register(r, authority, token, valid, hooks, gate, name).0
    case CallUnregister(authority) => Unregister(r, authority)
    case CallActivate(authority, storeRevokes, gate) => Activate(r, authority, storeRevokes, gate).0
    case CallDeactivate => ClearActive(r)
    case CallIssueGrant(authority, now, valid, stillValid, gate, storeIssues) =>
      IssueGrant(r, authority, now, valid, stillValid, gate, storeIssues).0
    case Key(key, modifier, down, input, command, trusted, stillTrusted, gate, posts) =>
      RouteKeyboard(r, key, modifier, down, input, command, trusted, stillTrusted, gate, posts).0
    case Mouse(input, trustedTarget, gate) => ObserveMouse(r, input, trustedTarget, gate).0
    case DispatchCommand(valid, gate) => Dispatch(r, valid, gate).0
    case Revoke(token) => r.(revoked := r.revoked + {token})
  }

  // ---- What the log must look like -----------------------------------------------------------------

  /** Anything that makes or ends evidence of `b`. */
  predicate Concerns(e: Event, b: nat) {
    (e.Activated? || e.Observed? || e.Granted?) && e.binding == b
  }

  /** The observation at `o` is the latest of `b`, was not granted upon, and `b` was not activated since. */
  predicate Unspent(log: seq<Event>, b: nat, input: Tick, o: nat) {
    o < |log| && log[o] == Observed(b, input) && forall k :: o < k < |log| ==> !Concerns(log[k], b)
  }

  ghost predicate GrantsFounded(log: seq<Event>) {
    forall g :: 0 <= g < |log| && log[g].Granted? ==>
                  && Age(log[g].now, log[g].input) <= MaxGestureAge
                  && exists o :: Unspent(log[..g], log[g].binding, log[g].input, o)
  }

  predicate IsSwitch(e: Event) { e.Activated? || e.Deactivated? }

  /** Which binding a log leaves active. */
  function ActiveAfter(log: seq<Event>): Option<nat> {
    if log == [] then None
    else
      var last := log[|log| - 1];
      if last.Activated? then Some(last.binding)
      else if last.Deactivated? then None
      else ActiveAfter(log[..|log| - 1])
  }

  /** A keystroke was accepted for `b` at `q`, when `b` was active, and since then no binding was activated or deactivated. */
  predicate StillStands(log: seq<Event>, b: nat, q: nat) {
    && q < |log| && log[q] == Queued(b) && ActiveAfter(log[..q]) == Some(b)
    && forall k :: q < k < |log| ==> !IsSwitch(log[k])
  }

  predicate FiresFounded(log: seq<Event>) {
    forall f :: 0 <= f < |log| && log[f].Fired? ==> StillStands(log[..f], log[f].binding, log[f].queuedAt)
  }

  // ---- The invariant ----------------------------------------------------------------------------------

  ghost predicate Backed(log: seq<Event>, b: nat, x: Binding) {
    x.lastTrusted != 0 && x.lastTrusted != x.lastGranted ==> exists o :: Unspent(log, b, x.lastTrusted, o)
  }

  /** A deferred command remembers the state of the log at its keystroke. */
  predicate Remembers(log: seq<Event>, d: Deferred) {
    && d.queuedAt < |log| && log[d.queuedAt] == Queued(d.binding)
    && ActiveAfter(log[..d.queuedAt]) == Some(d.binding)
    && d.epoch == Count(log[..d.queuedAt], IsSwitch)
  }

  predicate TokensApart(r: Router)
    requires Known(r)
  {
    forall s, t :: s in r.bindings && t in r.bindings && s != t ==>
                     r.objects[r.bindings[s]].token != r.objects[r.bindings[t]].token
  }

  predicate Placed(r: Router)
    requires Known(r)
  {
    && (forall tab <- r.bindings :: r.objects[r.bindings[tab]].authority.tab == tab)
    && (r.active.Some? ==> var tab := r.objects[r.active.value].authority.tab;
                           tab in r.bindings && r.bindings[tab] == r.active.value)
  }

  ghost predicate Inv(r: Router) {
    && Known(r) && Placed(r) && TokensApart(r)
    && ActiveAfter(r.log) == r.active && r.epoch == Count(r.log, IsSwitch)
    && (forall b <- r.objects :: Backed(r.log, b, r.objects[b]))
    && (forall d <- r.queue :: Remembers(r.log, d))
    && GrantsFounded(r.log) && FiresFounded(r.log)
  }

  function Run(r: Router, actions: seq<Action>): Router {
    Iterate(Next, r, actions)
  }

  // ---- Every step keeps it --------------------------------------------------------------------------------

  lemma ActiveSnoc(log: seq<Event>, e: Event)
    ensures ActiveAfter(log + [e]) == if e.Activated? then Some(e.binding) else if e.Deactivated? then None else ActiveAfter(log)
  {
    assert (log + [e])[..|log|] == log;
  }

  lemma UnspentSnoc(log: seq<Event>, e: Event, b: nat, input: Tick, o: nat)
    requires Unspent(log, b, input, o) && !Concerns(e, b)
    ensures Unspent(log + [e], b, input, o)
  {}

  lemma BackedSnoc(log: seq<Event>, e: Event, b: nat, x: Binding)
    requires Backed(log, b, x) && !Concerns(e, b)
    ensures Backed(log + [e], b, x)
  {
    if x.lastTrusted != 0 && x.lastTrusted != x.lastGranted {
      var o :| Unspent(log, b, x.lastTrusted, o);
      UnspentSnoc(log, e, b, x.lastTrusted, o);
    }
  }

  lemma RemembersSnoc(log: seq<Event>, e: Event, d: Deferred)
    requires Remembers(log, d)
    ensures Remembers(log + [e], d)
  {
    assert (log + [e])[..d.queuedAt] == log[..d.queuedAt];
  }

  lemma GrantsSnoc(log: seq<Event>, e: Event)
    requires GrantsFounded(log)
    requires e.Granted? ==> Age(e.now, e.input) <= MaxGestureAge && exists o :: Unspent(log, e.binding, e.input, o)
    ensures GrantsFounded(log + [e])
  {
    forall g | 0 <= g < |log + [e]| && (log + [e])[g].Granted?
      ensures Age((log + [e])[g].now, (log + [e])[g].input) <= MaxGestureAge
      ensures exists o :: Unspent((log + [e])[..g], (log + [e])[g].binding, (log + [e])[g].input, o)
    {
      assert (log + [e])[..g] == log[..g];
      if g == |log| { assert log[..g] == log; }
    }
  }

  lemma FiresSnoc(log: seq<Event>, e: Event)
    requires FiresFounded(log) && (e.Fired? ==> StillStands(log, e.binding, e.queuedAt))
    ensures FiresFounded(log + [e])
  {
    forall f | 0 <= f < |log + [e]| && (log + [e])[f].Fired?
      ensures StillStands((log + [e])[..f], (log + [e])[f].binding, (log + [e])[f].queuedAt)
    {
      assert (log + [e])[..f] == log[..f];
      if f == |log| { assert log[..f] == log; }
    }
  }

  lemma SamePlaces(r: Router, r': Router, b: nat)
    requires Known(r) && TokensApart(r) && Known(r') && b in r.objects && r'.bindings == r.bindings
    requires r'.objects.Keys == r.objects.Keys && forall c <- r.objects :: r'.objects[c].token == r.objects[c].token
    ensures TokensApart(r')
  {}

  lemma SameBacking(r: Router, e: Event, objects: map<nat, Binding>)
    requires Inv(r) && e.binding in objects && Backed(r.log + [e], e.binding, objects[e.binding])
    requires objects.Keys == r.objects.Keys && forall b <- r.objects :: b != e.binding ==> objects[b] == r.objects[b]
    ensures forall b <- objects :: Backed(r.log + [e], b, objects[b])
  {
    hide Remembers, TokensApart, GrantsFounded, FiresFounded, Backed, Placed;
    forall b <- objects ensures Backed(r.log + [e], b, objects[b]) {
      if b != e.binding { BackedSnoc(r.log, e, b, r.objects[b]); }
    }
  }

  /** What an event may do: one binding's evidence changes with it, and the selection follows it. */
  lemma LogInv(r: Router, e: Event, x: Binding, active: Option<nat>, epoch: nat, queue: seq<Deferred>)
    requires Inv(r) && e.binding in r.objects && x.authority == r.objects[e.binding].authority && x.token == r.objects[e.binding].token
    requires Backed(r.log + [e], e.binding, x)
    requires active == ActiveAfter(r.log + [e]) && epoch == Count(r.log + [e], IsSwitch)
    requires forall d <- queue :: Remembers(r.log + [e], d) && d.binding in r.objects
    requires e.Granted? ==> Age(e.now, e.input) <= MaxGestureAge && exists o :: Unspent(r.log, e.binding, e.input, o)
    requires e.Fired? ==> StillStands(r.log, e.binding, e.queuedAt)
    requires active.Some? ==> active.value in r.objects
                              && var tab := r.objects[active.value].authority.tab;
                                 tab in r.bindings && r.bindings[tab] == active.value
    ensures Inv(Logged(Put(r, e.binding, x), e).(active := active, epoch := epoch, queue := queue))
  {
    hide Backed, Remembers, TokensApart, GrantsFounded, FiresFounded, ActiveAfter;
    GrantsSnoc(r.log, e);
    FiresSnoc(r.log, e);
    SameBacking(r, e, r.objects[e.binding := x]);
    SamePlaces(r, Logged(Put(r, e.binding, x), e).(active := active, epoch := epoch, queue := queue), e.binding);
  }

  lemma QueueSnoc(r: Router, e: Event)
    requires Inv(r)
    ensures forall d <- r.queue :: Remembers(r.log + [e], d) && d.binding in r.objects
  {
    forall d <- r.queue ensures Remembers(r.log + [e], d) { RemembersSnoc(r.log, e, d); }
  }

  lemma ClearInv(r: Router, b: nat)
    requires Inv(r) && b in r.objects
    ensures Inv(ClearEvidence(r, b))
  {}

  lemma ClearActiveInv(r: Router)
    requires Inv(r)
    ensures Inv(ClearActive(r)) && ClearActive(r).active == None && ClearActive(r).revoked == r.revoked
    ensures ClearActive(r).bindings == r.bindings && ClearActive(r).objects.Keys == r.objects.Keys
    ensures forall b <- r.objects :: ClearActive(r).objects[b].authority == r.objects[b].authority
                                     && ClearActive(r).objects[b].token == r.objects[b].token
  {
    if r.active.Some? {
      var b := r.active.value;
      var e := Deactivated(b);
      ActiveSnoc(r.log, e);
      CountSnoc(r.log, e, IsSwitch);
      QueueSnoc(r, e);
      LogInv(r, e, r.objects[b].(lastTrusted := 0, lastGranted := 0), None, r.epoch + 1, r.queue);
    }
  }

  lemma UnregisterInv(r: Router, authority: Authority)
    requires Inv(r)
    ensures var r' := Unregister(r, authority);
      && Inv(r') && r'.objects.Keys == r.objects.Keys
      && (authority.tab in r.bindings && r.objects[r.bindings[authority.tab]].authority == authority ==>
            r'.bindings == r.bindings - {authority.tab})
      && (forall b <- r.objects :: r'.objects[b].authority == r.objects[b].authority && r'.objects[b].token == r.objects[b].token)
  {
    var tab := authority.tab;
    if tab in r.bindings && r.objects[r.bindings[tab]].authority == authority {
      var b := r.bindings[tab];
      ClearActiveInv(r);
      ClearInv(r, b);
      var cleared := if r.active == Some(b) then ClearActive(r) else ClearEvidence(r, b);
      hide ClearActive, ClearEvidence;
      ForgetInv(cleared, tab, r.objects[b].token);
    }
  }

  /** A binding that is not active may go. */
  lemma ForgetInv(r: Router, tab: nat, token: nat)
    requires Inv(r) && tab in r.bindings && r.active != Some(r.bindings[tab])
    ensures Inv(r.(revoked := r.revoked + {token}, bindings := r.bindings - {tab}))
  {
    hide Backed, Remembers, GrantsFounded, FiresFounded;
  }

  lemma RegisterInv(r: Router, authority: Authority, token: nat, valid: bool, hooks: bool, gate: Gate, name: nat)
    requires Inv(r) && name !in r.objects
    ensures Inv(Register(r, authority, token, valid, hooks, gate, name).0)
  {
    var tab := authority.tab;
    if !TokenReused(r, authority, token) {
      if tab in r.bindings { UnregisterInv(r, r.objects[r.bindings[tab]].authority); }
      var r1 := if tab in r.bindings then Unregister(r, r.objects[r.bindings[tab]].authority) else r;
      if tab !in r.bindings || r.objects[r.bindings[tab]].authority != authority || r.objects[r.bindings[tab]].token != token {
        TokenIsNew(r, authority, token);
        hide Unregister;
        AddInv(r1, authority, token, name);
      }
    }
  }

  lemma TokenIsNew(r: Router, authority: Authority, token: nat)
    requires Known(r) && Placed(r) && !TokenReused(r, authority, token)
    requires var tab := authority.tab;
      tab !in r.bindings || r.objects[r.bindings[tab]].authority != authority || r.objects[r.bindings[tab]].token != token
    ensures forall tab <- r.bindings :: r.objects[r.bindings[tab]].token != token
  {}

  lemma AddInv(r: Router, authority: Authority, token: nat, name: nat)
    requires Inv(r) && name !in r.objects && authority.tab !in r.bindings
    requires forall tab <- r.bindings :: r.objects[r.bindings[tab]].token != token
    ensures Inv(Put(r, name, Binding(authority, token, 0, 0)).(bindings := r.bindings[authority.tab := name]))
  {
    hide Remembers, GrantsFounded, FiresFounded;
  }

  lemma SwitchOnInv(c: Router, b: nat)
    requires Inv(c) && c.active.None? && b in c.objects
    requires c.objects[b].lastTrusted == 0
    requires var tab := c.objects[b].authority.tab; tab in c.bindings && c.bindings[tab] == b
    ensures Inv(Logged(c.(active := Some(b), epoch := c.epoch + 1), Activated(b)))
  {
    hide GrantsFounded, FiresFounded, Remembers, TokensApart;
    var e := Activated(b);
    ActiveSnoc(c.log, e);
    CountSnoc(c.log, e, IsSwitch);
    QueueSnoc(c, e);
    LogInv(c, e, c.objects[b], Some(b), c.epoch + 1, c.queue);
    assert c.objects[b := c.objects[b]] == c.objects;
  }

  lemma ActivateInv(r: Router, authority: Authority, storeRevokes: bool, gate: Gate)
    requires Inv(r)
    ensures Inv(Activate(r, authority, storeRevokes, gate).0)
  {
    ClearActiveInv(r);
    var tab := authority.tab;
    if tab in r.bindings && r.objects[r.bindings[tab]].authority == authority && r.active != Some(r.bindings[tab]) {
      var b := r.bindings[tab];
      hide ClearActive, GrantsFounded, FiresFounded, Remembers, TokensApart, Backed;
      ClearInv(ClearActive(r), b);
      SwitchOnInv(ClearEvidence(ClearActive(r), b), b);
    }
  }

  lemma ObserveInv(r: Router, b: nat, input: Tick)
    requires Inv(r) && b in r.objects
    ensures Inv(Observe(r, b, input))
  {
    var e := Observed(b, input);
    ActiveSnoc(r.log, e);
    CountSnoc(r.log, e, IsSwitch);
    QueueSnoc(r, e);
    assert Unspent(r.log + [e], b, input, |r.log|);
    LogInv(r, e, r.objects[b].(lastTrusted := input), r.active, r.epoch, r.queue);
  }

  lemma GrantInv(r: Router, authority: Authority, now: Tick, valid: bool, stillValid: bool, gate: Gate, storeIssues: bool)
    requires Inv(r)
    ensures Inv(IssueGrant(r, authority, now, valid, stillValid, gate, storeIssues).0)
  {
    if r.active.Some? && r.objects[r.active.value].authority == authority {
      var b := r.active.value;
      var x := r.objects[b];
      ClearInv(r, b);
      if IssueGrant(r, authority, now, valid, stillValid, gate, storeIssues).1 {
        var e := Granted(b, x.lastTrusted, now);
        ActiveSnoc(r.log, e);
        CountSnoc(r.log, e, IsSwitch);
        QueueSnoc(r, e);
        LogInv(r, e, x.(lastGranted := x.lastTrusted), r.active, r.epoch, r.queue);
      }
    }
  }

  lemma QueueInv(r: Router, b: nat, command: nat)
    requires Inv(r) && r.active == Some(b)
    ensures Inv(Logged(r.(queue := r.queue + [Deferred(b, command, r.epoch, |r.log|)]), Queued(b)))
  {
    var e := Queued(b);
    ActiveSnoc(r.log, e);
    CountSnoc(r.log, e, IsSwitch);
    QueueSnoc(r, e);
    var d := Deferred(b, command, r.epoch, |r.log|);
    assert (r.log + [e])[..|r.log|] == r.log;
    assert Remembers(r.log + [e], d);
    BackedSnoc(r.log, e, b, r.objects[b]);
    LogInv(r, e, r.objects[b], r.active, r.epoch, r.queue + [d]);
    assert r.objects[b := r.objects[b]] == r.objects;
  }

  lemma KeyInv(r: Router, key: int, modifier: bool, down: bool, input: Tick, command: Option<nat>,
               trusted: bool, stillTrusted: bool, gate: Gate, posts: bool)
    requires Inv(r)
    ensures Inv(RouteKeyboard(r, key, modifier, down, input, command, trusted, stillTrusted, gate, posts).0)
  {
    SuppressedInv(r, r.suppressed + {key});
    SuppressedInv(r, r.suppressed - {key});
    if r.active.Some? {
      var b := r.active.value;
      var s := r.(suppressed := r.suppressed + {key});
      ClearInv(r, b);
      ClearInv(s, b);
      ObserveInv(r, b, input);
      if command.Some? { QueueInv(s, b, command.value); }
    }
  }

  lemma SuppressedInv(r: Router, suppressed: set<int>)
    requires Inv(r)
    ensures Inv(r.(suppressed := suppressed))
  {
    hide Backed, Remembers, GrantsFounded, FiresFounded;
  }

  lemma RevokeInv(r: Router, token: nat)
    requires Inv(r)
    ensures Inv(r.(revoked := r.revoked + {token}))
  {
    hide Backed, Remembers, GrantsFounded, FiresFounded;
  }

  lemma FireInv(s: Router, d: Deferred)
    requires Inv(s) && Remembers(s.log, d) && s.active == Some(d.binding) && s.epoch == d.epoch
    ensures Inv(Logged(s, Fired(d.binding, d.queuedAt)))
  {
    hide GrantsFounded, FiresFounded, TokensApart;
    var e := Fired(d.binding, d.queuedAt);
    NothingSwitched(s.log, d);
    ActiveSnoc(s.log, e);
    CountSnoc(s.log, e, IsSwitch);
    QueueSnoc(s, e);
    BackedSnoc(s.log, e, d.binding, s.objects[d.binding]);
    LogInv(s, e, s.objects[d.binding], s.active, s.epoch, s.queue);
    assert s.objects[d.binding := s.objects[d.binding]] == s.objects;
  }

  lemma DispatchInv(r: Router, valid: bool, gate: Gate)
    requires Inv(r)
    ensures Inv(Dispatch(r, valid, gate).0)
  {
    hide GrantsFounded, FiresFounded, TokensApart, Remembers, Backed, Placed;
    if r.queue != [] {
      var d, s := r.queue[0], r.(queue := r.queue[1..]);
      assert d in r.queue && forall x <- s.queue :: x in r.queue;
      PopInv(r);
      ClearInv(s, d.binding);
      if r.active == Some(d.binding) && r.epoch == d.epoch { FireInv(s, d); }
    }
  }

  lemma PopInv(r: Router)
    requires Inv(r) && r.queue != []
    ensures Inv(r.(queue := r.queue[1..]))
  {
    hide GrantsFounded, FiresFounded, Remembers, Backed;
    assert forall x <- r.queue[1..] :: x in r.queue;
  }

  /** An unchanged epoch means that nothing was activated or deactivated meanwhile. */
  lemma NothingSwitched(log: seq<Event>, d: Deferred)
    requires Remembers(log, d) && d.epoch == Count(log, IsSwitch)
    ensures StillStands(log, d.binding, d.queuedAt)
  {
    var later := log[d.queuedAt..];
    assert log == log[..d.queuedAt] + later;
    CountAppend(log[..d.queuedAt], later, IsSwitch);
    CountZero(later, IsSwitch);
    forall k | d.queuedAt < k < |log| ensures !IsSwitch(log[k]) { assert log[k] == later[k - d.queuedAt]; }
  }

  lemma NextInv(r: Router, a: Action)
    requires Inv(r)
    ensures Inv(Next(r, a))
  {
    hide Register, Unregister, Activate, IssueGrant, RouteKeyboard, Dispatch, Backed, Remembers, GrantsFounded, FiresFounded,
         Placed, TokensApart, ClearActive;
    match a
    case CallRegister(authority, token, valid, hooks, gate, name) =>
      if name !in r.objects { RegisterInv(r, authority, token, valid, hooks, gate, name); }
    case CallUnregister(authority) => UnregisterInv(r, authority);
    case CallActivate(authority, storeRevokes, gate) => ActivateInv(r, authority, storeRevokes, gate);
    case CallDeactivate => ClearActiveInv(r);
    case CallIssueGrant(authority, now, valid, stillValid, gate, storeIssues) =>
      GrantInv(r, authority, now, valid, stillValid, gate, storeIssues);
    case Key(key, modifier, down, input, command, trusted, stillTrusted, gate, posts) =>
      KeyInv(r, key, modifier, down, input, command, trusted, stillTrusted, gate, posts);
    case Mouse(input, trustedTarget, gate) =>
      if r.active.Some? {
        ClearInv(r, r.active.value);
        ObserveInv(r, r.active.value, input);
      }
    case DispatchCommand(valid, gate) => DispatchInv(r, valid, gate);
    case Revoke(token) => RevokeInv(r, token);
  }

  lemma {:induction false} RunInv(r: Router, actions: seq<Action>)
    requires Inv(r)
    ensures Inv(Run(r, actions))
    decreases actions
  {
    hide Inv, Next;
    if actions != [] {
      NextInv(r, actions[0]);
      RunInv(Next(r, actions[0]), actions[1..]);
    }
  }

  // ---- Theorems ---------------------------------------------------------------------------------------------

  /**
   Every grant rests on an observation of the same binding, made since its latest
   activation and at most a second before on the wrapping clock.
   */
  lemma EveryGrantHasItsObservation(actions: seq<Action>, g: nat)
    requires g < |Run(InitialRouter, actions).log| && Run(InitialRouter, actions).log[g].Granted?
    ensures var log := Run(InitialRouter, actions).log;
      && Age(log[g].now, log[g].input) <= MaxGestureAge
      && exists o :: Unspent(log[..g], log[g].binding, log[g].input, o)
  {
    RunInv(InitialRouter, actions);
  }

  /** No observation serves two grants: the map from grants to their observations is injective. */
  lemma NoObservationServesTwice(log: seq<Event>, g: nat, h: nat, o: nat)
    requires g < h < |log| && log[g].Granted? && log[h].Granted? && log[g].binding == log[h].binding
    requires Unspent(log[..g], log[g].binding, log[g].input, o)
    ensures !Unspent(log[..h], log[h].binding, log[h].input, o)
  {
    if Unspent(log[..h], log[h].binding, log[h].input, o) {
      assert o < g && Concerns(log[..h][g], log[h].binding);
      assert false;
    }
  }

  /**
   A command fires only if a keystroke for it was accepted while its binding was
   active, and no binding was activated or deactivated from then on, not even away and back.
   */
  lemma CommandsFireOnlyWhileActive(actions: seq<Action>, f: nat)
    requires f < |Run(InitialRouter, actions).log| && Run(InitialRouter, actions).log[f].Fired?
    ensures var log := Run(InitialRouter, actions).log;
      var (b, q) := (log[f].binding, log[f].queuedAt);
      && q < f && log[q] == Queued(b)
      && (forall k :: q < k < f ==> !IsSwitch(log[k]))
      && (forall k :: q <= k <= f ==> ActiveAfter(log[..k]) == Some(b))
  {
    RunInv(InitialRouter, actions);
    var log := Run(InitialRouter, actions).log;
    var b, q := log[f].binding, log[f].queuedAt;
    assert StillStands(log[..f], b, q);
    assert forall k :: 0 <= k < f ==> log[..f][k] == log[k];
    assert log[..f][..q] == log[..q];
    forall k | q <= k <= f ensures ActiveAfter(log[..k]) == Some(b) { StaysActive(log, b, q, k); }
  }

  lemma {:induction false} StaysActive(log: seq<Event>, b: nat, q: nat, k: nat)
    requires q <= k <= |log| && q < |log| && ActiveAfter(log[..q]) == Some(b) && !IsSwitch(log[q])
    requires forall i :: q < i < k ==> !IsSwitch(log[i])
    ensures ActiveAfter(log[..k]) == Some(b)
    decreases k
  {
    if k > q {
      StaysActive(log, b, q, k - 1);
      assert log[..k] == log[..k - 1] + [log[k - 1]];
      ActiveSnoc(log[..k - 1], log[k - 1]);
    }
  }

  /** No admission token admits two tabs, and the active binding is registered under its own tab. */
  lemma TokensAreNotShared(actions: seq<Action>)
    ensures var r := Run(InitialRouter, actions); Known(r) && TokensApart(r) && Placed(r)
  {
    RunInv(InitialRouter, actions);
  }
}
