/**
 When a running session ends, and as what.  The reasons are read off the state before a
 step and the step itself; everything else lets the session go on.
 */
module SessionEnding {
  import opened Common
  import opened SessionTypes
  import opened SessionController
  import opened SessionIo
  import opened SessionSystem
  import opened SessionInvariant
  import opened SessionIoInvariant
  import opened SessionTheorems
  import opened SessionTranscript

  datatype End = GoesOn(signals: seq<Signal>) | ShutDown | Replaced(binding: Option<Authority>) | Fails(error: Error)

  function EndIf(bad: bool, error: Error): End {
    if bad then Fails(error) else GoesOn([])
  }

  function EndingOfEvent(c: Gui, e: GuiEvent, valid: bool): End {
    if e.generation != c.life.generation then GoesOn([])
    else
      match e
      case NavigationRequested(_, _, _) => EndIf(c.routes.loads != map[] && !(valid && Room(c, 1)), ResponseQueueFailed)
      case RouteLoadResponse(_, loadId, ok, route) =>
        if loadId !in c.routes.loads then Fails(UnexpectedResponse)
        else if !ok || c.routes.loads[loadId] != route then Fails(RouteLoadRejected)
        else GoesOn(if c.routes.loads.Keys == {loadId} then [RouteLoadAcknowledged(c.routes.latestRoute, c.life.generation)] else [])
      case CommandFinished(_, _, success, published, error) =>
        if !success then Fails(if error == NoError then SendFailed else error)
        else if c.queue.active.Some? && Completing(c.queue.active.value) && published then
          GoesOn([CapabilityResponseSent(c.queue.active.value.capabilityRequestId, c.life.generation)])
        else GoesOn([])
      case SessionFailed(_, error) => Fails(error)
      case PostedFailure(_, error) => Fails(error)
      case _ => GoesOn([])
  }

  /** An exception from the callback ends whatever session runs when it arrives, also one that was started meanwhile. */
  function EndingOfReturn(c: Gui, f: Frame, navigation: Navigation, use: bool, valid: bool, loadValid: bool): End {
    if f.Navigating? && navigation == Threw then Fails(NavigationCallbackFailed)
    else if f.generation != c.life.generation then GoesOn([])
    else
      match f
      case Navigating(_, _, route) =>
        if navigation == Refused then EndIf(!(valid && Room(c, 1)), ResponseQueueFailed)
        else EndIf(!(valid && loadValid && CanLoad(c, route) && Room(c, 2)), OutboundQueueFull)
      case ObservingCapability(authority, _, requestId) =>
        if c.slot.activeRequest == "" then EndIf(!c.slot.runtimeBound && authority.Some?, CapabilityAuthorityMismatch)
        else if !c.slot.runtimeBound then Fails(CapabilityAuthorityMismatch)
        else EndIf(!(use && valid && Room(c, 1) && requestId != c.slot.activeRequest), ResponseQueueFailed)
      case _ => GoesOn([])
  }

  function Ending(s: System, a: Action): End {
    var c := s.gui;
    match a
    case CallShutdown(hasReason) => if hasReason then ShutDown else GoesOn([])
    case CallAttach(binding, _) =>
      if binding.Some? && binding.value.sessionGeneration != c.life.generation + 1 then GoesOn([]) else Replaced(binding)
    case DeliverToGui(valid, _) => if s.toGui == [] then GoesOn([]) else EndingOfEvent(c, s.toGui[0], valid)
    case ReturnFromObserver(navigation, use, valid, loadValid) =>
      if s.frames == [] then GoesOn([]) else EndingOfReturn(c, s.frames[|s.frames| - 1], navigation, use, valid, loadValid)
    case _ => GoesOn([])
  }

  /** Nothing of the session is left in the controller. */
  predicate Emptied(c: Gui) {
    && c.queue.outbound == [] && c.queue.active.None? && c.routes.loads == map[] && c.routes.latestId == 0
    && c.slot == NoSlot
  }

  /** The last call posted to the agent, and the signals added. */
  predicate Posts(c: Gui, d: Gui, e: IoEvent, signals: seq<Signal>) {
    d.out.posted != [] && d.out.posted[|d.out.posted| - 1] == e && d.out.signals == c.out.signals + signals
  }

  predicate Ended(c: Gui, d: Gui, end: End) {
    var g := c.life.generation;
    && d.life.generation == g && d.life.hasIo
    && match end
       case GoesOn(signals) => d.life.phase == Running && d.out.signals == c.out.signals + signals
       case ShutDown =>
         && d.life.phase == ShuttingDown && d.life.cleanupFinal == Detached && !d.life.pendingSession && !d.life.stopRequested
         && Emptied(d) && Posts(c, d, BeginShutdown(g), [])
       case Replaced(binding) =>
         && d.life.phase == ShuttingDown && d.life.cleanupFinal == Detached && d.life.stopRequested
         && d.life.pendingSession && d.life.pendingBinding == binding
         && Emptied(d) && Posts(c, d, Abort(g), [])
       case Fails(error) =>
         && d.life.phase == Failed && d.life.cleanupFinal == Failed && d.life.stopRequested && d.life.lastError == error
         && !d.life.pendingSession && d.life.pendingBinding.None?
         && Emptied(d) && Posts(c, d, Abort(g), [FailedWith(error, g)])
  }

  /** A running session as the invariant describes it. */
  predicate Alive(c: Gui) {
    c.life.phase == Running && c.life.hasIo && !c.life.stopRequested && !c.life.pendingSession
  }

  lemma FailEnds(c: Gui, d: Gui, error: Error)
    requires Alive(c) && d.life == c.life && d.out.signals == c.out.signals
    ensures Ended(c, FailClosed(d, error), Fails(error))
  {}

  lemma SameEnds(c: Gui, d: Gui)
    requires Alive(c) && d.life == c.life && d.out.signals == c.out.signals
    ensures Ended(c, d, GoesOn([]))
  {}

  lemma EnqueueLife(c: Gui, command: Command)
    ensures var d := Enqueue(c, command); d.life == c.life && d.out.signals == c.out.signals && d.routes == c.routes
    ensures Alive(c) && c.out.posted == [] ==> QueueLength(Enqueue(c, command).queue) == QueueLength(c.queue) + 1
  {}

  lemma ReplyEnds(c: Gui, requestId: string, valid: bool)
    requires Alive(c)
    ensures Ended(c, ReplyAndResume(c, requestId, valid), EndIf(!(valid && Room(c, 1)), ResponseQueueFailed))
  {
    hide Enqueue, FailClosed, Ended;
    var reply := PlainCommand(NavigationReply(requestId, false), true);
    EnqueueLife(c, reply);
    SameEnds(c, Enqueue(c, reply));
    FailEnds(c, c, ResponseQueueFailed);
  }

  lemma AcceptedEnds(c: Gui, requestId: string, route: string, loadValid: bool)
    requires Alive(c) && c.out.posted == [] && Room(c, 1)
    ensures var (d, ok) := EnqueueRouteLoad(Enqueue(c, PlainCommand(NavigationReply(requestId, true), false)), route, loadValid);
      Ended(c, if ok then MarkResume(d) else FailClosed(d, OutboundQueueFull),
            EndIf(!(loadValid && CanLoad(c, route) && Room(c, 2)), OutboundQueueFull))
  {
    hide Enqueue, FailClosed, Ended;
    var reply := PlainCommand(NavigationReply(requestId, true), false);
    EnqueueLife(c, reply);
    var d := Enqueue(c, reply);
    var id := d.routes.nextLoad + 1;
    EnqueueLife(d.(routes := Routes(d.routes.loads[id := route], id, route, false, id)),
                Command(0, RouteLoad(id, route), route, true, false, "", None, false));
    var e := EnqueueRouteLoad(d, route, loadValid).0;
    SameEnds(c, MarkResume(e));
    FailEnds(c, e, OutboundQueueFull);
  }

  lemma NavigationEnds(c: Gui, f: Frame, navigation: Navigation, use: bool, valid: bool, loadValid: bool)
    requires Alive(c) && c.out.posted == [] && f.Navigating?
    ensures Ended(c, NavigationReturns(c, f.generation, f.requestId, f.route, navigation, valid, loadValid),
                  EndingOfReturn(c, f, navigation, use, valid, loadValid))
  {
    hide Enqueue, FailClosed, Ended, EnqueueRouteLoad, MarkResume, ReplyAndResume;
    SameEnds(c, c);
    FailEnds(c, c, NavigationCallbackFailed);
    FailEnds(c, c, OutboundQueueFull);
    ReplyEnds(c, f.requestId, valid);
    if Room(c, 1) { AcceptedEnds(c, f.requestId, f.route, loadValid); }
  }

  lemma ResponseLife(c: Gui, authority: Option<Authority>, hasUse: bool, generation: nat, requestId: string, result: BrokerResult,
                     completes: bool, valid: bool)
    ensures var (d, ok) := QueueCapabilityResponse(c, authority, hasUse, generation, requestId, result, completes, valid);
      && d.life == c.life && d.out.signals == c.out.signals
      && (ok <==> !RefusesResponse(c, authority, hasUse, generation, requestId, result, completes) && valid && Room(c, 1))
  {}

  lemma ObservedEnds(c: Gui, f: Frame, navigation: Navigation, use: bool, valid: bool, loadValid: bool)
    requires Alive(c) && f.ObservingCapability?
    requires Current(c, f.generation) ==> f.requestId != "" && Bound(c, f.authority)
    ensures Ended(c, CapabilityObserved(c, f.authority, f.generation, f.requestId, use, valid),
                  EndingOfReturn(c, f, navigation, use, valid, loadValid))
  {
    hide FailClosed, Ended, QueueCapabilityResponse;
    var (busy, denied) := (BrokerResult(false, Busy), BrokerResult(false, Denied));
    SameEnds(c, c);
    FailEnds(c, c, CapabilityAuthorityMismatch);
    FailEnds(c, c, ResponseQueueFailed);
    ResponseLife(c, f.authority, true, f.generation, f.requestId, busy, false, valid);
    var d := QueueCapabilityResponse(c, f.authority, true, f.generation, f.requestId, busy, false, valid).0;
    FailEnds(c, d, ResponseQueueFailed);
    SameEnds(c, d);
    var claimed := c.(slot := c.slot.(activeRequest := f.requestId));
    ResponseLife(claimed, None, false, f.generation, f.requestId, denied, true, valid);
    SameEnds(c, QueueCapabilityResponse(claimed, None, false, f.generation, f.requestId, denied, true, valid).0);
    if c.slot.authority.Some? {
      var dispatch := Dispatch(f.generation, f.requestId, c.slot.authority.value);
      SameEnds(c, claimed.(out := claimed.out.(dispatched := claimed.out.dispatched + [dispatch])));
    }
  }

  /** A burst of route loads never ends inconsistently, so an expected answer lets the session go on. */
  lemma RouteEnds(c: Gui, e: GuiEvent, requested: map<nat, string>, answered: set<nat>, valid: bool)
    requires Alive(c) && e.RouteLoadResponse? && Loading(c.routes, requested, answered)
    ensures Ended(c, RouteResponseArrives(c, e.generation, e.loadId, e.ok, e.route).0, EndingOfEvent(c, e, valid))
  {
    hide FailClosed, Ended, Loading;
    SameEnds(c, c);
    FailEnds(c, c, UnexpectedResponse);
    FailEnds(c, c, RouteLoadRejected);
    var (d, frames) := RouteResponseArrives(c, e.generation, e.loadId, e.ok, e.route);
    if Current(c, e.generation) && e.loadId in c.routes.loads && e.ok && c.routes.loads[e.loadId] == e.route {
      LoadingGrows(c.routes, requested, answered, e.loadId);
      LastLoad(c.routes.loads, e.loadId);
      if Erased(c.routes, e.loadId).loads == map[] {
        BurstEnds(c.routes, requested, answered + {e.loadId}, e.loadId);
        SignalEnds(c, d, RouteLoadAcknowledged(c.routes.latestRoute, c.life.generation));
      } else {
        SameEnds(c, d);
      }
    }
  }

  lemma LastLoad(loads: map<nat, string>, loadId: nat)
    requires loadId in loads
    ensures loads - {loadId} == map[] <==> loads.Keys == {loadId}
  {
    if loads - {loadId} == map[] {
      forall id <- loads.Keys ensures id == loadId { assert id !in loads - {loadId}; }
    }
  }

  lemma SignalEnds(c: Gui, d: Gui, signal: Signal)
    requires Alive(c) && d.life == c.life && d.out.signals == c.out.signals + [signal]
    ensures Ended(c, d, GoesOn([signal]))
  {}

  lemma LoadingGrows(r: Routes, requested: map<nat, string>, answered: set<nat>, loadId: nat)
    requires Loading(r, requested, answered)
    ensures Loading(r, requested, answered + {loadId})
  {}

  lemma FinishEnds(c: Gui, e: GuiEvent, valid: bool)
    requires Alive(c) && e.CommandFinished?
    requires e.generation == c.life.generation ==>
               && c.queue.active.Some? && c.queue.active.value.id == e.commandId
               && (Completing(c.queue.active.value) ==> c.queue.active.value.capabilityRequestId == c.slot.activeRequest)
    ensures Ended(c, CommandFinishes(c, e.generation, e.commandId, e.success, e.published, e.error).0, EndingOfEvent(c, e, valid))
  {
    hide FailClosed, Ended, PumpAndResume;
    SameEnds(c, c);
    if e.generation == c.life.generation {
      var active := c.queue.active.value;
      var idle := c.(queue := c.queue.(active := None));
      var free := idle.(slot := idle.slot.(activeRequest := ""));
      FailEnds(c, idle, if e.error == NoError then SendFailed else e.error);
      PumpLife(idle, active.resumePollingAfter);
      PumpLife(free, active.resumePollingAfter);
      var d := CommandFinishes(c, e.generation, e.commandId, true, e.published, e.error).0;
      if Completing(active) && e.published {
        SignalEnds(c, d, CapabilityResponseSent(active.capabilityRequestId, c.life.generation));
      } else {
        SameEnds(c, d);
      }
    }
  }

  lemma PumpLife(c: Gui, resume: bool)
    ensures PumpAndResume(c, resume).life == c.life && PumpAndResume(c, resume).out.signals == c.out.signals
  {}

  lemma ArrivalEnds(c: Gui, e: GuiEvent, valid: bool)
    requires Alive(c) && e.NavigationRequested?
    ensures Ended(c, NavigationArrives(c, e.generation, e.requestId, e.route, valid).0, EndingOfEvent(c, e, valid))
  {
    hide Ended, ReplyAndResume;
    SameEnds(c, c);
    ReplyEnds(c, e.requestId, valid);
  }

  // ---- In the composed session ----------------------------------------------------------------------

  /** The controller as seen from outside: what it posted has joined the agent's queue. */
  function Seen(s: System): Gui {
    s.gui.(out := s.gui.out.(posted := s.toIo))
  }

  lemma AbsorbEnds(s: System, d: Gui, frames: seq<Frame>, end: End)
    requires Ended(s.gui, d, end)
    ensures Ended(s.gui, Seen(Absorb(s, d, frames)), end)
  {}

  lemma AliveFacts(s: System)
    requires Inv(s) && s.gui.life.phase == Running
    ensures Alive(s.gui) && s.gui.out.posted == [] && Loading(s.gui.routes, s.requested, s.answered)
    ensures forall e <- s.toGui :: e.generation == s.gui.life.generation ==>
                                     && !e.ThreadFinished? && !e.ShutdownFinished?
                                     && (e.CommandFinished? ==> s.gui.queue.active.Some? && e.commandId == s.gui.queue.active.value.id)
    ensures s.gui.queue.active.Some? && Completing(s.gui.queue.active.value) ==>
              s.gui.queue.active.value.capabilityRequestId == s.gui.slot.activeRequest
  {}

  lemma DeliveryEnds(s: System, valid: bool, outcome: StartOutcome)
    requires Inv(s) && s.gui.life.phase == Running && s.toGui != []
    ensures Ended(s.gui, Seen(Deliver(PopGui(s), s.toGui[0], valid, outcome)), EndingOfEvent(s.gui, s.toGui[0], valid))
  {
    hide Inv, Ended, Seen, Absorb, NavigationArrives, RouteResponseArrives, CommandFinishes, FailClosed, Loading;
    var (c, t, e) := (s.gui, PopGui(s), s.toGui[0]);
    assert e in s.toGui;
    AliveFacts(s);
    SameEnds(c, c);
    var end := EndingOfEvent(c, e, valid);
    match e
    case NavigationRequested(generation, requestId, route) =>
      ArrivalEnds(c, e, valid);
      var (d, frames) := NavigationArrives(c, generation, requestId, route, valid);
      AbsorbEnds(t, d, frames, end);
    case RouteLoadResponse(generation, loadId, ok, route) =>
      RouteEnds(c, e, s.requested, s.answered, valid);
      var (d, frames) := RouteResponseArrives(c, generation, loadId, ok, route);
      var matches := generation == c.life.generation && ok && loadId in s.requested && s.requested[loadId] == route;
      AbsorbEnds(t.(answered := if matches then s.answered + {loadId} else s.answered), d, frames, end);
    case CapabilityRequested(authority, generation, requestId) =>
      AbsorbEnds(t, c, CapabilityArrives(c, authority, generation, requestId).1, end);
    case CommandFinished(generation, commandId, success, published, error) =>
      FinishEnds(c, e, valid);
      var (d, frames) := CommandFinishes(c, generation, commandId, success, published, error);
      AbsorbEnds(t, d, frames, end);
    case SessionFailed(generation, error) =>
      FailEnds(c, c, error);
      AbsorbEnds(t, SessionFailureArrives(c, generation, error), [], end);
    case PostedFailure(generation, error) =>
      FailEnds(c, c, error);
      AbsorbEnds(t, SessionFailureArrives(c, generation, error), [], end);
    case ShutdownFinished(generation) => AbsorbEnds(t, ShutdownFinishes(c, generation), [], end);
    case ThreadFinished(generation) => AbsorbEnds(t, ThreadFinishes(c, generation, outcome), [], end);
  }

  lemma ReturnEnds(s: System, navigation: Navigation, use: bool, valid: bool, loadValid: bool)
    requires Inv(s) && s.gui.life.phase == Running && s.frames != []
    ensures var f := s.frames[|s.frames| - 1];
      Ended(s.gui, Seen(Return(PopFrame(s), f, navigation, use, valid, loadValid)),
            EndingOfReturn(s.gui, f, navigation, use, valid, loadValid))
  {
    hide Inv, Ended, Seen, Absorb, NavigationReturns, CapabilityObserved, PumpAndResume, Loading;
    var (c, t, f) := (s.gui, PopFrame(s), s.frames[|s.frames| - 1]);
    AliveFacts(s);
    FrameIsGenuine(s);
    BindingFacts(s);
    var end := EndingOfReturn(c, f, navigation, use, valid, loadValid);
    match f
    case Navigating(generation, requestId, route) =>
      NavigationEnds(c, f, navigation, use, valid, loadValid);
      AbsorbEnds(t, NavigationReturns(c, generation, requestId, route, navigation, valid, loadValid), [], end);
    case Acknowledging(generation) =>
      SameEnds(c, AcknowledgementReturns(c, generation));
      AbsorbEnds(t, AcknowledgementReturns(c, generation), [], end);
    case ObservingCapability(authority, generation, requestId) =>
      ObservedEnds(c, f, navigation, use, valid, loadValid);
      AbsorbEnds(t, CapabilityObserved(c, authority, generation, requestId, use, valid), [], end);
    case ReportingSent(generation, resume) =>
      PumpLife(c, resume);
      SameEnds(c, SentReportReturns(c, generation, resume));
      AbsorbEnds(t, SentReportReturns(c, generation, resume), [], end);
  }

  lemma CallEnds(s: System, a: Action)
    requires Inv(s) && s.gui.life.phase == Running
    requires OnGuiThread(a) && !a.DeliverToGui? && !a.ReturnFromObserver?
    ensures Ended(s.gui, Seen(Next(s, a)), Ending(s, a))
  {
    hide Inv, Seen, Absorb, Loading, Enqueue, QueueCapabilityResponse, RefusesResponse;
    var c := s.gui;
    AliveFacts(s);
    SameEnds(c, c);
    match a
    case CallRequestRouteLoad(route, valid) =>
      RouteLoadLife(c, route, valid);
      AbsorbEnds(s, RequestRouteLoad(c, route, valid).0, [], GoesOn([]));
    case CallSendVisibility(visible) =>
      EnqueueLife(c, PlainCommand(VisibilityChanged(visible), false));
      AbsorbEnds(s, SendVisibilityChanged(c, visible).0, [], GoesOn([]));
    case CallShutdown(hasReason) => AbsorbEnds(s, Shutdown(c, hasReason).0, [], Ending(s, a));
    case CallAttach(authority, outcome) => AbsorbEnds(s, Attach(c, authority, outcome).0, [], Ending(s, a));
    case CallUnbind(bound) => AbsorbEnds(s, UnbindCapabilityRuntime(c, bound), [], GoesOn([]));
    case DestroyRuntime => SeenSame(s);
    case CompleteDispatch(i, hasUse, result, valid) =>
      if i < |s.outstanding| {
        var done := s.outstanding[i];
        ResponseLife(c, Some(done.authority), true, done.generation, done.requestId, result, true, valid);
        AbsorbEnds(Completed(s, i), SubmitCapabilityCompletion(c, done, hasUse, result, valid).0, [], GoesOn([]));
      } else {
        SeenSame(s);
      }
    case _ =>
  }

  lemma RouteLoadLife(c: Gui, route: string, valid: bool)
    ensures var d := EnqueueRouteLoad(c, route, valid).0; d.life == c.life && d.out.signals == c.out.signals
  {}

  lemma SeenSame(s: System)
    requires Alive(s.gui)
    ensures Ended(s.gui, Seen(s), GoesOn([]))
    ensures Ended(s.gui, Seen(s.(gui := s.gui.(slot := s.gui.slot.(runtimeBound := false)))), GoesOn([]))
  {}

  /**
   When a running session ends, and as what, in every reachable state and for every step.
   A failed session announces its error once and aborts its agent, one that is shut down
   tells the agent to, and one that is replaced aborts it and waits for its end; in each
   case nothing of the session is left in the controller.  Nothing else ends a session.
   */
  lemma SessionEndsExactlyAs(s: System, a: Action)
    requires Reachable(s) && s.gui.life.phase == Running
    ensures Ended(s.gui, Seen(Next(s, a)), Ending(s, a))
  {
    ReachableSafe(s);
    AliveFacts(s);
    hide Inv, Safe, Reachable, Ended, Seen, Deliver, Return, Shutdown, Attach, RequestRouteLoad, SendVisibilityChanged, Absorb,
         SubmitCapabilityCompletion, UnbindCapabilityRuntime, NextIo, Start, Loading, AbsorbIo, EndingOfEvent, EndingOfReturn;
    SeenSame(s);
    match a
    case DeliverToGui(valid, outcome) => if s.toGui != [] { DeliveryEnds(s, valid, outcome); }
    case ReturnFromObserver(navigation, use, valid, loadValid) =>
      if s.frames != [] { ReturnEnds(s, navigation, use, valid, loadValid); }
    case _ =>
      if OnGuiThread(a) { CallEnds(s, a); } else { AgentEnds(s, a); }
  }

  lemma AgentEnds(s: System, a: Action)
    requires Alive(s.gui) && !OnGuiThread(a)
    ensures Ended(s.gui, Seen(Next(s, a)), GoesOn([]))
  {
    hide Next;
    IoKeepsGui(s, a);
  }

  // ---- How a session begins, and what follows its end ---------------------------------------------------

  /** A session with this binding can start as the next generation. */
  predicate CanStart(c: Gui, binding: Option<Authority>, outcome: StartOutcome) {
    if binding.Some? then outcome == Started && binding.value.sessionGeneration == c.life.generation + 1
    else outcome != NoDispatchContext && outcome != TransferRefused
  }

  /** It runs as the next generation, with an agent and its own binding and with nothing of an earlier session. */
  predicate Begun(c: Gui, d: Gui, binding: Option<Authority>) {
    && d.life.phase == Running && d.life.generation == c.life.generation + 1 && d.life.hasIo && !d.life.stopRequested
    && d.life.cleanupFinal == Failed && d.life.lastError == NoError
    && d.queue.outbound == [] && d.queue.active.None? && d.routes.loads == map[] && d.routes.latestId == 0
    && d.slot == Slot(binding.Some?, binding, "")
    && d.queue.nextCommand == c.queue.nextCommand && d.routes.nextLoad == c.routes.nextLoad
  }

  lemma StartsExactlyWhen(c: Gui, binding: Option<Authority>, outcome: StartOutcome)
    requires !c.life.hasIo && c.life.phase != Running
    ensures var (d, ok) := StartSession(c, binding, outcome);
      && (ok <==> CanStart(c, binding, outcome)) && d.out == c.out
      && (ok ==> Begun(c, d, binding))
      && (!ok ==> !d.life.hasIo && d.life.phase != Running && d.life.lastError != NoError && d.queue.nextCommand == c.queue.nextCommand)
      && d.life.pendingSession == c.life.pendingSession
  {}

  /** A new session starts at once, or waits for the end of the one that still has an agent, which is told to stop once. */
  lemma AttachesExactlyWhen(c: Gui, binding: Option<Authority>, outcome: StartOutcome)
    requires c.life.phase == Running ==> c.life.hasIo
    ensures var (d, ok) := Attach(c, binding, outcome);
      var stale := binding.Some? && binding.value.sessionGeneration != c.life.generation + 1;
      && (ok <==> !stale && (c.life.hasIo || CanStart(c, binding, outcome)))
      && (stale ==> d == c.(life := c.life.(lastError := InvalidCapabilityBinding)))
      && (ok && !c.life.hasIo ==> Begun(c, d, binding))
      && (ok && c.life.hasIo ==>
            && d.life.phase == ShuttingDown && d.life.generation == c.life.generation && d.life.hasIo && d.life.stopRequested
            && d.life.pendingSession && d.life.pendingBinding == binding && d.life.cleanupFinal == Detached && Emptied(d)
            && d.out.posted == c.out.posted + (if c.life.stopRequested then [] else [Abort(c.life.generation)]))
  {
    hide StartSession;
    if !c.life.hasIo { StartsExactlyWhen(c, binding, outcome); }
  }

  /** When the agent's thread has ended, the session that waited starts or fails, and otherwise the controller rests as it was to. */
  lemma ThreadEndsExactly(c: Gui, generation: nat, outcome: StartOutcome)
    ensures var d := ThreadFinishes(c, generation, outcome);
      var (g, starts) := (c.life.generation, CanStart(c, c.life.pendingBinding, outcome));
      if generation != g || !c.life.hasIo then d == c
      else if !c.life.pendingSession then
        && d.life == c.life.(hasIo := false, stopRequested := false, phase := c.life.cleanupFinal) && Emptied(d)
        && d.out.signals == c.out.signals + [SessionDetached(g)]
      else if starts then
        Begun(c, d, c.life.pendingBinding) && !d.life.pendingSession && d.out.signals == c.out.signals
      else
        && d.life.phase == Failed && !d.life.hasIo && !d.life.pendingSession && d.life.lastError == ReattachFailed
        && d.out.signals == c.out.signals + [FailedWith(ReattachFailed, d.life.generation)]
  {
    hide StartSession;
    if c.life.hasIo && c.life.pendingSession {
      var life := c.life.(hasIo := false, stopRequested := false, pendingSession := false, pendingBinding := None, phase := Detached);
      StartsExactlyWhen(Drop(c, life), c.life.pendingBinding, outcome);
    }
  }

  // ---- While a session is shutting down ---------------------------------------------------------------

  /** A finished shutdown stops the agent of a session that shuts down, once, and changes nothing else of its life. */
  lemma ShutdownFinishesExactly(c: Gui, generation: nat)
    ensures var d := ShutdownFinishes(c, generation);
      if generation == c.life.generation && c.life.phase == ShuttingDown then
        && d.life == c.life.(cleanupFinal := Detached, stopRequested := c.life.stopRequested || c.life.hasIo)
        && d.out.signals == c.out.signals
        && d.out.posted == c.out.posted + (if c.life.hasIo && !c.life.stopRequested then [Abort(c.life.generation)] else [])
      else d == c
  {}

  /** A failure is announced once: in a session that has failed or rests it changes nothing. */
  lemma FailureArrivesExactly(c: Gui, generation: nat, error: Error)
    ensures var d := SessionFailureArrives(c, generation, error);
      if generation == c.life.generation && (c.life.phase == Running || c.life.phase == ShuttingDown) then
        && d.life == c.life.(phase := Failed, lastError := error, cleanupFinal := Failed, pendingBinding := None,
                             stopRequested := c.life.stopRequested || c.life.hasIo)
        && Emptied(d) && d.out.signals == c.out.signals + [FailedWith(error, generation)]
        && d.out.posted == c.out.posted + (if c.life.hasIo && !c.life.stopRequested then [Abort(generation)] else [])
      else d == c
  {}

  /** A session waits for the end of this one. */
  predicate Waiting(c: Gui, binding: Option<Authority>) {
    c.life.pendingSession && c.life.pendingBinding == binding && c.life.hasIo
  }

  /** A failure of the session that is shutting down. */
  predicate FailsMeanwhile(s: System, a: Action) {
    || (a.DeliverToGui? && s.toGui != [] && (s.toGui[0].SessionFailed? || s.toGui[0].PostedFailure?)
        && s.toGui[0].generation == s.gui.life.generation)
    || (a.ReturnFromObserver? && s.frames != [] && s.frames[|s.frames| - 1].Navigating? && a.navigation == Threw)
  }

  predicate ThreadEnds(s: System, a: Action) {
    a.DeliverToGui? && s.toGui != [] && s.toGui[0].ThreadFinished? && s.toGui[0].generation == s.gui.life.generation
  }

  /** The waiting session's binding after a step that does not end the wait. */
  function BindingAfter(s: System, a: Action): Option<Authority> {
    if FailsMeanwhile(s, a) then None
    else if a.CallAttach? && !(a.authority.Some? && a.authority.value.sessionGeneration != s.gui.life.generation + 1) then a.authority
    else s.gui.life.pendingBinding
  }

  predicate StaysWaiting(c: Gui, d: Gui, binding: Option<Authority>) {
    c.life.phase == ShuttingDown && c.life.pendingSession && c.life.hasIo ==>
      Waiting(d, binding) && d.life.generation == c.life.generation && d.life.phase != Running
  }

  lemma CallsStayWaiting(c: Gui, route: string, valid: bool, flag: bool, done: Dispatch, result: BrokerResult, bound: Authority)
    ensures StaysWaiting(c, RequestRouteLoad(c, route, valid).0, c.life.pendingBinding)
    ensures StaysWaiting(c, SendVisibilityChanged(c, flag).0, c.life.pendingBinding)
    ensures StaysWaiting(c, Shutdown(c, flag).0, c.life.pendingBinding)
    ensures StaysWaiting(c, SubmitCapabilityCompletion(c, done, flag, result, valid).0, c.life.pendingBinding)
    ensures StaysWaiting(c, UnbindCapabilityRuntime(c, bound), c.life.pendingBinding)
  {}

  lemma DeliveriesStayWaiting(c: Gui, e: GuiEvent, valid: bool)
    ensures e.NavigationRequested? ==>
              StaysWaiting(c, NavigationArrives(c, e.generation, e.requestId, e.route, valid).0, c.life.pendingBinding)
    ensures e.RouteLoadResponse? ==>
              StaysWaiting(c, RouteResponseArrives(c, e.generation, e.loadId, e.ok, e.route).0, c.life.pendingBinding)
    ensures e.CommandFinished? ==>
              StaysWaiting(c, CommandFinishes(c, e.generation, e.commandId, e.success, e.published, e.error).0, c.life.pendingBinding)
    ensures StaysWaiting(c, ShutdownFinishes(c, e.generation), c.life.pendingBinding) && StaysWaiting(c, c, c.life.pendingBinding)
    ensures e.SessionFailed? || e.PostedFailure? ==>
              StaysWaiting(c, SessionFailureArrives(c, e.generation, e.error),
                           if e.generation == c.life.generation then None else c.life.pendingBinding)
  {}

  lemma ReturnsStayWaiting(c: Gui, f: Frame, navigation: Navigation, use: bool, valid: bool, loadValid: bool)
    ensures f.Navigating? ==>
              StaysWaiting(c, NavigationReturns(c, f.generation, f.requestId, f.route, navigation, valid, loadValid),
                           if navigation == Threw then None else c.life.pendingBinding)
    ensures f.Acknowledging? ==> StaysWaiting(c, AcknowledgementReturns(c, f.generation), c.life.pendingBinding)
    ensures f.ObservingCapability? ==>
              StaysWaiting(c, CapabilityObserved(c, f.authority, f.generation, f.requestId, use, valid), c.life.pendingBinding)
    ensures f.ReportingSent? ==> StaysWaiting(c, SentReportReturns(c, f.generation, f.resume), c.life.pendingBinding)
  {}

  /**
   A session that waits for the end of another keeps its capability binding until then,
   exactly unless the other one fails meanwhile: then it still waits, but without it.
   */
  lemma WaitingBindingIsLostExactlyWhen(s: System, a: Action)
    requires Reachable(s) && s.gui.life.phase == ShuttingDown && s.gui.life.pendingSession && !ThreadEnds(s, a)
    ensures Waiting(Next(s, a).gui, BindingAfter(s, a))
  {
    ReachableSafe(s);
    WaitingHasAgent(s);
    hide Inv, Safe, Reachable, Waiting, BindingAfter, Deliver, Return, Absorb, RequestRouteLoad, SendVisibilityChanged, Shutdown, Attach,
         UnbindCapabilityRuntime, NextIo, SubmitCapabilityCompletion, Start, AbsorbIo;
    StaysSo(s, a);
    match a
    case DeliverToGui(valid, outcome) => if s.toGui != [] { DeliveryWaits(s, valid, outcome); }
    case ReturnFromObserver(navigation, use, valid, loadValid) => if s.frames != [] { ReturnWaits(s, a); }
    case _ => CallWaits(s, a);
  }

  lemma StaysSo(s: System, a: Action)
    requires s.gui.life.pendingSession && s.gui.life.hasIo
    ensures (a.DeliverToGui? && s.toGui == []) || (a.ReturnFromObserver? && s.frames == []) ==> Waiting(s.gui, BindingAfter(s, a))
  {}

  lemma DeliveryWaits(s: System, valid: bool, outcome: StartOutcome)
    requires s.gui.life.phase == ShuttingDown && s.gui.life.pendingSession && s.gui.life.hasIo && s.toGui != []
    requires !ThreadEnds(s, DeliverToGui(valid, outcome))
    ensures Waiting(Deliver(PopGui(s), s.toGui[0], valid, outcome).gui, BindingAfter(s, DeliverToGui(valid, outcome)))
  {
    hide NavigationArrives, RouteResponseArrives, CommandFinishes, SessionFailureArrives, ShutdownFinishes, Deliver, ThreadFinishes;
    DeliveredLife(s, valid, outcome);
    DeliveriesStayWaiting(s.gui, s.toGui[0], valid);
    ThreadEndsExactly(s.gui, s.toGui[0].generation, outcome);
  }

  lemma ReturnWaits(s: System, a: Action)
    requires s.gui.life.phase == ShuttingDown && s.gui.life.pendingSession && s.gui.life.hasIo && s.frames != []
    requires a.ReturnFromObserver?
    ensures Waiting(Return(PopFrame(s), s.frames[|s.frames| - 1], a.navigation, a.hasUse, a.valid, a.loadValid).gui, BindingAfter(s, a))
  {
    hide Absorb, NavigationReturns, AcknowledgementReturns, CapabilityObserved, SentReportReturns;
    AbsorbedLife(PopFrame(s));
    ReturnsStayWaiting(s.gui, s.frames[|s.frames| - 1], a.navigation, a.hasUse, a.valid, a.loadValid);
  }

  lemma CallWaits(s: System, a: Action)
    requires s.gui.life.phase == ShuttingDown && s.gui.life.pendingSession && s.gui.life.hasIo
    requires !a.DeliverToGui? && !a.ReturnFromObserver?
    ensures Waiting(Next(s, a).gui, BindingAfter(s, a))
  {
    hide Absorb, RequestRouteLoad, SendVisibilityChanged, Shutdown, Attach, UnbindCapabilityRuntime, NextIo, Start, AbsorbIo,
         SubmitCapabilityCompletion;
    var c, nobody, nothing := s.gui, Dispatch(0, "", Authority(0, 0)), BrokerResult(false, Denied);
    AbsorbedLife(s);
    match a
    case CallRequestRouteLoad(route, valid) => CallsStayWaiting(c, route, valid, false, nobody, nothing, Authority(0, 0));
    case CallSendVisibility(visible) => CallsStayWaiting(c, "", false, visible, nobody, nothing, Authority(0, 0));
    case CallShutdown(hasReason) => CallsStayWaiting(c, "", false, hasReason, nobody, nothing, Authority(0, 0));
    case CallUnbind(bound) => CallsStayWaiting(c, "", false, false, nobody, nothing, bound);
    case CallAttach(authority, outcome) => AttachesExactlyWhen(c, authority, outcome);
    case CompleteDispatch(i, hasUse, result, valid) =>
      if i < |s.outstanding| {
        AbsorbedLife(Completed(s, i));
        CallsStayWaiting(c, "", valid, hasUse, s.outstanding[i], result, Authority(0, 0));
      }
    case DestroyRuntime =>
    case _ => IoKeepsGui(s, a);
  }

  lemma WaitingHasAgent(s: System)
    requires Inv(s)
    ensures s.gui.life.pendingSession ==> s.gui.life.hasIo
  {}

  const First := Authority(1, 2)

  /** The states of a run in which the first session's pipe breaks and a second session is attached before that is handled. */
  function Stage(life: Life, signals: seq<Signal>, io: Io, toIo: seq<IoEvent>, toGui: seq<GuiEvent>): System {
    System(Gui(life, Queue([], None, 0), Routes(map[], 0, "", false, 0), NoSlot, Outbox([], [], [], signals)),
           Some(io), toIo, toGui, [], [], 0, [], map[], {})
  }

  const Fresh := Life(Running, Failed, 1, true, false, false, None, NoError)
  const Behind := Life(ShuttingDown, Detached, 1, true, true, true, Some(First), NoError)
  const FailedFirst := Life(Failed, Failed, 1, true, true, true, None, ReceiveFailed)
  const BrokenIo := NewIo(1, None).(started := true, terminal := true)
  const Report := SessionFailed(1, ReceiveFailed)

  lemma FirstAttached()
    ensures Next(InitialSystem, CallAttach(None, Started)) == Stage(Fresh, [], NewIo(1, None), [], [])
  {}

  lemma PipeBreaks()
    ensures Next(Stage(Fresh, [], NewIo(1, None), [], []), PeerSends(Broken))
         == Stage(Fresh, [], NewIo(1, None).(incoming := [Broken]), [], [])
  {
    assert [] + [Broken] == [Broken];
  }

  lemma FirstBreaks()
    ensures Next(Stage(Fresh, [], NewIo(1, None).(incoming := [Broken]), [], []), StartIo) == Stage(Fresh, [], BrokenIo, [], [Report])
  {
    hide Absorb;
    assert [Broken][1..] == [];
  }

  lemma SecondAttached()
    ensures Next(Stage(Fresh, [], BrokenIo, [], [Report]), CallAttach(Some(First), Started))
         == Stage(Behind, [], BrokenIo, [Abort(1)], [Report])
  {
    hide StartSession;
  }

  lemma FailureHandled()
    ensures Next(Stage(Behind, [], BrokenIo, [Abort(1)], [Report]), DeliverToGui(true, Started))
         == Stage(FailedFirst, [FailedWith(ReceiveFailed, 1)], BrokenIo, [Abort(1)], [])
  {
    assert [Report][1..] == [];
  }

  lemma AgentEnded()
    ensures Next(Stage(FailedFirst, [FailedWith(ReceiveFailed, 1)], BrokenIo, [Abort(1)], []), DeliverToIo(true))
         == Stage(FailedFirst, [FailedWith(ReceiveFailed, 1)], BrokenIo, [], [ThreadFinished(1)])
  {
    assert [Abort(1)][1..] == [];
  }

  /** The session runs as the generation its binding was issued for, but unbound. */
  predicate RunsUnbound(s: System) {
    s.gui.life.phase == Running && s.gui.life.generation == First.sessionGeneration && s.gui.slot == Slot(false, None, "")
  }

  lemma SecondStarts()
    ensures RunsUnbound(Next(Stage(FailedFirst, [FailedWith(ReceiveFailed, 1)], BrokenIo, [], [ThreadFinished(1)]),
                             DeliverToGui(true, Started)))
  {}

  const ToUnbound: seq<Action> :=
    [CallAttach(None, Started), PeerSends(Broken), StartIo, CallAttach(Some(First), Started), DeliverToGui(true, Started),
     DeliverToIo(true), DeliverToGui(true, Started)]

  /** One run from the start after which a session that was attached with a binding runs without it. */
  lemma WaitingSessionCanLoseItsBinding()
    ensures RunsUnbound(Run(InitialSystem, ToUnbound))
  {
    var s1 := Stage(Fresh, [], NewIo(1, None), [], []);
    var s2 := Stage(Fresh, [], NewIo(1, None).(incoming := [Broken]), [], []);
    FirstAttached();
    PipeBreaks();
    FirstBreaks();
    SecondAttached();
    FailureHandled();
    AgentEnded();
    SecondStarts();
    hide Next, RunsUnbound, Stage;
    var s6 := Stage(FailedFirst, [FailedWith(ReceiveFailed, 1)], BrokenIo, [], [ThreadFinished(1)]);
    IterateThrough(Next, [InitialSystem, s1, s2, Stage(Fresh, [], BrokenIo, [], [Report]),
                          Stage(Behind, [], BrokenIo, [Abort(1)], [Report]),
                          Stage(FailedFirst, [FailedWith(ReceiveFailed, 1)], BrokenIo, [Abort(1)], []), s6,
                          Next(s6, DeliverToGui(true, Started))], ToUnbound);
  }
}
