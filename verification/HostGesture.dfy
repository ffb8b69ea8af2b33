/** The gesture router as the object it is; each method is proved to have the effect GestureRouter gives it. */
module HostGesture {
  import opened Common
  import opened GestureRouter

  class HostGestureRouter {
    var bindings: map<nat, nat>
    var objects: map<nat, Binding>
    var activeBinding: Option<nat>
    var activationEpoch: nat
    var suppressedKeys: set<int>
    var queue: seq<Deferred>
    var revoked: set<nat>
    var log: seq<Event>

    function View(): Router reads this {
      Router(bindings, objects, activeBinding, activationEpoch, suppressedKeys, queue, revoked, log)
    }

    constructor ()
      ensures View() == InitialRouter
    {
      bindings, objects, activeBinding, activationEpoch := map[], map[], None, 0;
      suppressedKeys, queue, revoked, log := {}, [], {}, [];
    }

    method ClearBinding(b: nat)
      requires b in objects
      modifies this`objects
      ensures View() == ClearEvidence(old(View()), b)
    {
      objects := objects[b := objects[b].(lastTrusted := 0, lastGranted := 0)];
    }

    method ClearActiveEvidence()
      requires Known(View())
      modifies this`objects, this`activeBinding, this`activationEpoch, this`log
      ensures View() == ClearActive(old(View()))
    {
      var previous := activeBinding;
      if previous.None? { return; }
      activationEpoch := activationEpoch + 1;
      activeBinding := None;
      log := log + [Deactivated(previous.value)];
      ClearBinding(previous.value);
    }

    method UnregisterBinding(authority: Authority)
      requires Known(View())
      modifies this
      ensures View() == Unregister(old(View()), authority)
    {
      var tab := authority.tab;
      if tab !in bindings || objects[bindings[tab]].authority != authority { return; }
      var b := bindings[tab];
      var token := objects[b].token;
      if activeBinding == Some(b) { ClearActiveEvidence(); } else { ClearBinding(b); }
      revoked := revoked + {token};
      bindings := bindings - {tab};
    }

    /** Whether another binding already uses the token. */
    method FindTokenReuse(authority: Authority, token: nat) returns (reused: bool)
      requires Known(View())
      ensures reused <==> TokenReused(View(), authority, token)
    {
      var rest := bindings.Keys;
      while rest != {}
        invariant rest <= bindings.Keys
        invariant forall tab <- bindings.Keys - rest ::
                    objects[bindings[tab]].token == token ==> objects[bindings[tab]].authority == authority && tab == authority.tab
        decreases rest
      {
        var tab :| tab in rest;
        var x := objects[bindings[tab]];
        if x.token == token && (x.authority != authority || tab != authority.tab) { return true; }
        rest := rest - {tab};
      }
      return false;
    }

    method RegisterBinding(authority: Authority, token: nat, valid: bool, hooks: bool, gate: Gate, name: nat)
      returns (ok: bool)
      requires Known(View())
      modifies this
      ensures (View(), ok) == Register(old(View()), authority, token, valid, hooks, gate, name)
    {
      hide TokenReused, Unregister;
      if !valid || !hooks { return false; }
      var reused := FindTokenReuse(authority, token);
      if reused { return false; }
      var tab := authority.tab;
      if tab in bindings && objects[bindings[tab]].authority == authority && objects[bindings[tab]].token == token { return true; }
      if tab in bindings { UnregisterBinding(objects[bindings[tab]].authority); }
      if token in revoked || gate != Open { return false; }
      objects := objects[name := Binding(authority, token, 0, 0)];
      bindings := bindings[tab := name];
      return true;
    }

    method ActivateBinding(authority: Authority, storeRevokes: bool, gate: Gate) returns (ok: bool)
      requires Known(View())
      modifies this
      ensures (View(), ok) == Activate(old(View()), authority, storeRevokes, gate)
    {
      var tab := authority.tab;
      if tab !in bindings || objects[bindings[tab]].authority != authority {
        ClearActiveEvidence();
        return false;
      }
      var b := bindings[tab];
      var admitted := objects[b].token !in revoked && gate == Open;
      if activeBinding == Some(b) {
        if admitted { return true; }
        ClearActiveEvidence();
        return false;
      }
      ClearActiveEvidence();
      ClearBinding(b);
      if !storeRevokes || !admitted { return false; }
      activationEpoch := activationEpoch + 1;
      activeBinding := Some(b);
      log := log + [Activated(b)];
      return true;
    }

    method Issue(authority: Authority, now: Tick, valid: bool, stillValid: bool, gate: Gate, storeIssues: bool)
      returns (granted: bool)
      requires Known(View())
      modifies this
      ensures (View(), granted) == IssueGrant(old(View()), authority, now, valid, stillValid, gate, storeIssues)
    {
      if activeBinding.None? || objects[activeBinding.value].authority != authority { return false; }
      var b := activeBinding.value;
      var x := objects[b];
      if !valid || now == 0 || x.lastTrusted == 0 || x.lastTrusted == x.lastGranted || Age(now, x.lastTrusted) > MaxGestureAge {
        ClearBinding(b);
        return false;
      }
      if x.token in revoked || gate == Refused || !stillValid {
        ClearBinding(b);
        return false;
      }
      if gate != Open || !storeIssues {
        ClearBinding(b);
        return false;
      }
      objects := objects[b := x.(lastGranted := x.lastTrusted)];
      log := log + [Granted(b, x.lastTrusted, now)];
      return true;
    }

    method ObserveInput(b: nat, input: Tick)
      requires b in objects
      modifies this`objects, this`log
      ensures View() == Observe(old(View()), b, input)
    {
      objects := objects[b := objects[b].(lastTrusted := input)];
      log := log + [Observed(b, input)];
    }

    method Keyboard(key: int, modifier: bool, down: bool, input: Tick, command: Option<nat>,
                    trusted: bool, stillTrusted: bool, gate: Gate, posts: bool) returns (swallowed: bool)
      requires Known(View())
      modifies this
      ensures (View(), swallowed)
           == RouteKeyboard(old(View()), key, modifier, down, input, command, trusted, stillTrusted, gate, posts)
    {
      if !down && key in suppressedKeys {
        suppressedKeys := suppressedKeys - {key};
        return true;
      }
      if !down { return false; }
      if key in suppressedKeys { return true; }
      if modifier { return false; }
      if activeBinding.None? { return false; }
      var b := activeBinding.value;
      var token := objects[b].token;
      if command.Some? && trusted {
        suppressedKeys := suppressedKeys + {key};
        if token in revoked || gate == Refused || !stillTrusted {
          ClearBinding(b);
          return true;
        }
        if gate != Open || !posts {
          ClearBinding(b);
          return true;
        }
        queue := queue + [Deferred(b, command.value, activationEpoch, |log|)];
        log := log + [Queued(b)];
        return true;
      }
      if !trusted || input == 0 {
        if !trusted { ClearBinding(b); }
        return false;
      }
      if token in revoked || gate == Refused || !stillTrusted {
        ClearBinding(b);
        return false;
      }
      if gate == Open { ObserveInput(b, input); }
      return false;
    }

    method MouseInput(input: Tick, trustedTarget: bool, gate: Gate) returns (observed: bool)
      requires Known(View())
      modifies this
      ensures (View(), observed) == ObserveMouse(old(View()), input, trustedTarget, gate)
    {
      if activeBinding.None? || input == 0 { return false; }
      var b := activeBinding.value;
      if !trustedTarget || objects[b].token in revoked || gate == Refused {
        ClearBinding(b);
        return false;
      }
      if gate != Open { return false; }
      ObserveInput(b, input);
      return true;
    }

    method DispatchDeferred(valid: bool, gate: Gate) returns (command: Option<nat>)
      requires Known(View())
      modifies this
      ensures (View(), command) == Dispatch(old(View()), valid, gate)
    {
      if queue == [] { return None; }
      var d := queue[0];
      queue := queue[1..];
      if objects[d.binding].token in revoked || gate == Refused || !valid {
        ClearBinding(d.binding);
        return None;
      }
      if gate != Open || activeBinding != Some(d.binding) || activationEpoch != d.epoch {
        ClearBinding(d.binding);
        return None;
      }
      log := log + [Fired(d.binding, d.queuedAt)];
      return Some(d.command);
    }
  }
}
