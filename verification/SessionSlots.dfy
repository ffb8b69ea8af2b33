/** Who holds the capability slot of a running session, and what reaches the capability runtime. */
module SessionSlots {
  import opened Common
  import opened SessionTypes
  import opened SessionController
  import opened SessionIo
  import opened SessionSystem
  import opened SessionInvariant
  import opened SessionIoInvariant
  import opened SessionTheorems
  import opened SessionTranscript

  /** The capability request that the step hands to the controller, after its observers; empty if there is none. */
  function Observed(s: System, a: Action): string {
    if a.ReturnFromObserver? && s.frames != [] && s.frames[|s.frames| - 1].ObservingCapability?
       && Current(s.gui, s.frames[|s.frames| - 1].generation)
    then s.frames[|s.frames| - 1].requestId
    else ""
  }

  /** The step reports that the command answering the slot's request has been dealt with. */
  predicate AnswerReported(s: System, a: Action) {
    && a.DeliverToGui? && s.toGui != [] && s.toGui[0].CommandFinished? && s.toGui[0].generation == s.gui.life.generation
    && s.toGui[0].success && s.gui.queue.active.Some? && Completing(s.gui.queue.active.value)
  }

  /** The slot after a step that lets the session go on. */
  function SlotAfter(s: System, a: Action): Slot {
    var t := s.gui.slot;
    if a.CallUnbind? && t.authority == Some(a.bound) then Slot(false, None, t.activeRequest)
    else if a.DestroyRuntime? then t.(runtimeBound := false)
    else if AnswerReported(s, a) then t.(activeRequest := "")
    else if t.activeRequest == "" then t.(activeRequest := Observed(s, a))
    else t
  }

  /** What reaches the runtime: a request that finds the slot free in a bound session, under the session's authority. */
  function Dispatched(s: System, a: Action): seq<Dispatch> {
    var t := s.gui.slot;
    if t.activeRequest == "" && Observed(s, a) != "" && t.runtimeBound && t.authority.Some? then
      [Dispatch(s.gui.life.generation, Observed(s, a), t.authority.value)]
    else []
  }

  /** A completion is used up whether or not its answer is accepted. */
  function Kept(s: System, a: Action): seq<Dispatch> {
    if a.CompleteDispatch? && a.index < |s.outstanding| then s.outstanding[..a.index] + s.outstanding[a.index + 1..]
    else s.outstanding
  }

  predicate GoesOn(c: Gui, d: Gui) {
    d.life.phase == Running && d.life.generation == c.life.generation
  }

  /** If the session goes on, the slot and the dispatches are these. */
  predicate Slotted(c: Gui, d: Gui, slot: Slot, dispatched: seq<Dispatch>) {
    GoesOn(c, d) ==> d.slot == slot && d.out.dispatched == c.out.dispatched + dispatched
  }

  lemma CallsSlotted(c: Gui, route: string, valid: bool, flag: bool, authority: Option<Authority>, outcome: StartOutcome)
    requires c.life.phase == Running && c.life.hasIo
    ensures Slotted(c, RequestRouteLoad(c, route, valid).0, c.slot, []) && Slotted(c, SendVisibilityChanged(c, flag).0, c.slot, [])
    ensures Slotted(c, Shutdown(c, flag).0, c.slot, []) && Slotted(c, Attach(c, authority, outcome).0, c.slot, [])
    ensures authority.Some? ==>
              Slotted(c, UnbindCapabilityRuntime(c, authority.value),
                      if c.slot.authority == authority then Slot(false, None, c.slot.activeRequest) else c.slot, [])
  {}

  lemma FailSlotted(c: Gui, d: Gui, error: Error)
    ensures Slotted(c, FailClosed(d, error), c.slot, [])
  {}

  lemma EnqueueSlotted(c: Gui, command: Command)
    ensures var d := Enqueue(c, command); d.slot == c.slot && d.out.dispatched == c.out.dispatched
  {}

  lemma ReplySlotted(c: Gui, requestId: string, valid: bool)
    ensures Slotted(c, ReplyAndResume(c, requestId, valid), c.slot, [])
  {
    hide Enqueue, FailClosed;
    EnqueueSlotted(c, PlainCommand(NavigationReply(requestId, false), true));
    FailSlotted(c, c, ResponseQueueFailed);
  }

  lemma NavigationSlotted(c: Gui, f: Frame, navigation: Navigation, valid: bool, loadValid: bool)
    requires f.Navigating?
    ensures Slotted(c, NavigationArrives(c, f.generation, f.requestId, f.route, valid).0, c.slot, [])
    ensures Slotted(c, NavigationReturns(c, f.generation, f.requestId, f.route, navigation, valid, loadValid), c.slot, [])
  {
    hide Enqueue, FailClosed, ReplyAndResume;
    ReplySlotted(c, f.requestId, valid);
    FailSlotted(c, c, NavigationCallbackFailed);
    FailSlotted(c, c, OutboundQueueFull);
    var reply := PlainCommand(NavigationReply(f.requestId, true), false);
    var d := Enqueue(c, reply);
    EnqueueSlotted(c, reply);
    var id := d.routes.nextLoad + 1;
    EnqueueSlotted(d.(routes := Routes(d.routes.loads[id := f.route], id, f.route, false, id)),
                   Command(0, RouteLoad(id, f.route), f.route, true, false, "", None, false));
    FailSlotted(c, EnqueueRouteLoad(d, f.route, loadValid).0, OutboundQueueFull);
  }

  lemma RoutesSlotted(c: Gui, e: GuiEvent, resume: bool)
    ensures e.RouteLoadResponse? ==> Slotted(c, RouteResponseArrives(c, e.generation, e.loadId, e.ok, e.route).0, c.slot, [])
    ensures Slotted(c, AcknowledgementReturns(c, e.generation), c.slot, [])
    ensures Slotted(c, SentReportReturns(c, e.generation, resume), c.slot, [])
  {}

  lemma ResponseSlotted(c: Gui, authority: Option<Authority>, hasUse: bool, generation: nat, requestId: string, result: BrokerResult,
                        completes: bool, valid: bool)
    ensures Slotted(c, QueueCapabilityResponse(c, authority, hasUse, generation, requestId, result, completes, valid).0, c.slot, [])
  {}

  lemma ObservedSlotted(c: Gui, f: Frame, use: bool, valid: bool)
    requires f.ObservingCapability? && (Current(c, f.generation) ==> f.requestId != "" && Bound(c, f.authority))
    ensures var takes := Current(c, f.generation) && c.slot.activeRequest == "";
      Slotted(c, CapabilityObserved(c, f.authority, f.generation, f.requestId, use, valid),
              if takes then c.slot.(activeRequest := f.requestId) else c.slot,
              if takes && c.slot.runtimeBound && c.slot.authority.Some?
              then [Dispatch(f.generation, f.requestId, c.slot.authority.value)] else [])
  {
    hide QueueCapabilityResponse;
    ResponseSlotted(c, f.authority, true, f.generation, f.requestId, BrokerResult(false, Busy), false, valid);
    ResponseSlotted(c.(slot := c.slot.(activeRequest := f.requestId)), None, false, f.generation, f.requestId,
                    BrokerResult(false, Denied), true, valid);
  }

  lemma FinishSlotted(c: Gui, e: GuiEvent)
    requires c.life.phase == Running && e.CommandFinished?
    requires e.generation == c.life.generation ==>
               && c.queue.active.Some? && c.queue.active.value.id == e.commandId
               && (Completing(c.queue.active.value) ==> c.queue.active.value.capabilityRequestId == c.slot.activeRequest)
    ensures var frees := e.generation == c.life.generation && e.success && c.queue.active.Some? && Completing(c.queue.active.value);
      Slotted(c, CommandFinishes(c, e.generation, e.commandId, e.success, e.published, e.error).0,
              if frees then c.slot.(activeRequest := "") else c.slot, [])
  {}

  lemma EndsSlotted(c: Gui, e: GuiEvent, outcome: StartOutcome)
    requires c.life.phase == Running && c.life.cleanupFinal != Running
    ensures Slotted(c, ShutdownFinishes(c, e.generation), c.slot, []) && Slotted(c, ThreadFinishes(c, e.generation, outcome), c.slot, [])
    ensures e.SessionFailed? || e.PostedFailure? ==> Slotted(c, SessionFailureArrives(c, e.generation, e.error), c.slot, [])
  {}

  predicate SystemSlotted(s: System, t: System, kept: seq<Dispatch>, slot: Slot, dispatched: seq<Dispatch>) {
    GoesOn(s.gui, t.gui) ==> t.gui.slot == slot && t.outstanding == kept + dispatched
  }

  lemma AbsorbSlotted(s: System, d: Gui, frames: seq<Frame>, slot: Slot, dispatched: seq<Dispatch>)
    requires Slotted(s.gui, d, slot, dispatched) && s.gui.out.dispatched == []
    ensures SystemSlotted(s, Absorb(s, d, frames), s.outstanding, slot, dispatched)
  {}

  lemma SlotFacts(s: System)
    requires Inv(s) && s.gui.life.phase == Running
    ensures s.gui.out.dispatched == [] && s.gui.life.hasIo && s.gui.life.cleanupFinal != Running
    ensures forall e <- s.toGui :: e.generation == s.gui.life.generation && e.CommandFinished? ==>
                                     s.gui.queue.active.Some? && e.commandId == s.gui.queue.active.value.id
    ensures s.gui.queue.active.Some? && Completing(s.gui.queue.active.value) ==>
              s.gui.queue.active.value.capabilityRequestId == s.gui.slot.activeRequest
  {}

  lemma DeliverySlotted(s: System, valid: bool, outcome: StartOutcome)
    requires Inv(s) && s.gui.life.phase == Running && s.toGui != []
    ensures var a := DeliverToGui(valid, outcome);
      SystemSlotted(s, Deliver(PopGui(s), s.toGui[0], valid, outcome), s.outstanding, SlotAfter(s, a), [])
  {
    hide Inv, SystemSlotted, Slotted, Absorb, NavigationArrives, RouteResponseArrives, CommandFinishes, SessionFailureArrives,
         ShutdownFinishes, ThreadFinishes;
    var (c, t, e) := (s.gui, PopGui(s), s.toGui[0]);
    assert e in s.toGui;
    SlotFacts(s);
    EndsSlotted(c, e, outcome);
    var slot := SlotAfter(s, DeliverToGui(valid, outcome));
    SameOutstanding(s, t, Deliver(t, e, valid, outcome), slot);
    match e
    case NavigationRequested(generation, requestId, route) =>
      NavigationSlotted(c, Navigating(generation, requestId, route), Refused, valid, valid);
      var (d, frames) := NavigationArrives(c, generation, requestId, route, valid);
      AbsorbSlotted(t, d, frames, slot, []);
    case RouteLoadResponse(generation, loadId, ok, route) =>
      RoutesSlotted(c, e, false);
      var (d, frames) := RouteResponseArrives(c, generation, loadId, ok, route);
      var matches := generation == c.life.generation && ok && loadId in s.requested && s.requested[loadId] == route;
      var t' := t.(answered := if matches then s.answered + {loadId} else s.answered);
      AbsorbSlotted(t', d, frames, slot, []);
      SameOutstanding(s, t', Absorb(t', d, frames), slot);
    case CapabilityRequested(authority, generation, requestId) =>
      SameSlotted(c);
      AbsorbSlotted(t, c, CapabilityArrives(c, authority, generation, requestId).1, slot, []);
    case CommandFinished(generation, commandId, success, published, error) =>
      FinishSlotted(c, e);
      var (d, frames) := CommandFinishes(c, generation, commandId, success, published, error);
      AbsorbSlotted(t, d, frames, slot, []);
    case SessionFailed(generation, error) => AbsorbSlotted(t, SessionFailureArrives(c, generation, error), [], slot, []);
    case PostedFailure(generation, error) => AbsorbSlotted(t, SessionFailureArrives(c, generation, error), [], slot, []);
    case ShutdownFinished(generation) => AbsorbSlotted(t, ShutdownFinishes(c, generation), [], slot, []);
    case ThreadFinished(generation) => AbsorbSlotted(t, ThreadFinishes(c, generation, outcome), [], slot, []);
  }

  lemma SameSlotted(c: Gui)
    ensures Slotted(c, c, c.slot, [])
  {}

  lemma SameOutstanding(s: System, s': System, t: System, slot: Slot)
    requires s'.gui == s.gui
    ensures SystemSlotted(s', t, s.outstanding, slot, []) == SystemSlotted(s, t, s.outstanding, slot, [])
  {}

  lemma ReturnSlotted(s: System, a: Action)
    requires Inv(s) && s.gui.life.phase == Running && s.frames != [] && a.ReturnFromObserver?
    ensures var f := s.frames[|s.frames| - 1];
      SystemSlotted(s, Return(PopFrame(s), f, a.navigation, a.hasUse, a.valid, a.loadValid), s.outstanding, SlotAfter(s, a),
                    Dispatched(s, a))
  {
    hide Inv, Slotted, Absorb, NavigationReturns, CapabilityObserved, AcknowledgementReturns, SentReportReturns;
    var (c, t, f) := (s.gui, PopFrame(s), s.frames[|s.frames| - 1]);
    SlotFacts(s);
    FrameIsGenuine(s);
    BindingFacts(s);
    var (slot, dispatched) := (SlotAfter(s, a), Dispatched(s, a));
    match f
    case Navigating(generation, requestId, route) =>
      NavigationSlotted(c, f, a.navigation, a.valid, a.loadValid);
      AbsorbSlotted(t, NavigationReturns(c, generation, requestId, route, a.navigation, a.valid, a.loadValid), [], slot, dispatched);
    case Acknowledging(generation) =>
      RoutesSlotted(c, ThreadFinished(generation), false);
      AbsorbSlotted(t, AcknowledgementReturns(c, generation), [], slot, dispatched);
    case ObservingCapability(authority, generation, requestId) =>
      ObservedSlotted(c, f, a.hasUse, a.valid);
      AbsorbSlotted(t, CapabilityObserved(c, authority, generation, requestId, a.hasUse, a.valid), [], slot, dispatched);
    case ReportingSent(generation, resume) =>
      RoutesSlotted(c, ThreadFinished(generation), resume);
      AbsorbSlotted(t, SentReportReturns(c, generation, resume), [], slot, dispatched);
  }

  lemma CallSlotted(s: System, a: Action)
    requires Inv(s) && s.gui.life.phase == Running && OnGuiThread(a) && !a.DeliverToGui? && !a.ReturnFromObserver?
    ensures SystemSlotted(s, Next(s, a), Kept(s, a), SlotAfter(s, a), Dispatched(s, a))
  {
    hide Inv, Slotted, Absorb, RequestRouteLoad, SendVisibilityChanged, Shutdown, Attach, UnbindCapabilityRuntime,
         QueueCapabilityResponse;
    var c := s.gui;
    SlotFacts(s);
    SameSlotted(c);
    match a
    case CallRequestRouteLoad(route, valid) =>
      CallsSlotted(c, route, valid, false, None, Started);
      AbsorbSlotted(s, RequestRouteLoad(c, route, valid).0, [], c.slot, []);
    case CallSendVisibility(visible) =>
      CallsSlotted(c, "", false, visible, None, Started);
      AbsorbSlotted(s, SendVisibilityChanged(c, visible).0, [], c.slot, []);
    case CallShutdown(hasReason) =>
      CallsSlotted(c, "", false, hasReason, None, Started);
      AbsorbSlotted(s, Shutdown(c, hasReason).0, [], c.slot, []);
    case CallAttach(authority, outcome) =>
      CallsSlotted(c, "", false, false, authority, outcome);
      AbsorbSlotted(s, Attach(c, authority, outcome).0, [], c.slot, []);
    case CallUnbind(bound) =>
      CallsSlotted(c, "", false, false, Some(bound), Started);
      AbsorbSlotted(s, UnbindCapabilityRuntime(c, bound), [], SlotAfter(s, a), []);
    case CompleteDispatch(i, hasUse, result, valid) =>
      if i < |s.outstanding| {
        var (t, done) := (Completed(s, i), s.outstanding[i]);
        ResponseSlotted(c, Some(done.authority), true, done.generation, done.requestId, result, true, valid);
        AbsorbSlotted(t, SubmitCapabilityCompletion(c, done, hasUse, result, valid).0, [], c.slot, []);
      }
    case _ =>
  }

  /**
   While a session goes on: the slot is taken exactly when a request meets it free, freed
   exactly when the command that completes its request is reported finished, and a
   request reaches the runtime exactly when it takes the slot of a bound session.
   */
  lemma SlotIsExactly(s: System, a: Action)
    requires Reachable(s) && s.gui.life.phase == Running && GoesOn(s.gui, Next(s, a).gui)
    ensures var t := Next(s, a);
      t.gui.slot == SlotAfter(s, a) && t.outstanding == Kept(s, a) + Dispatched(s, a)
  {
    ReachableSafe(s);
    hide Inv, Safe, Reachable, SlotAfter, Dispatched, Kept;
    StepSlotted(s, a);
    hide Next;
  }

  lemma StepSlotted(s: System, a: Action)
    requires Inv(s) && s.gui.life.phase == Running
    ensures SystemSlotted(s, Next(s, a), Kept(s, a), SlotAfter(s, a), Dispatched(s, a))
  {
    hide Inv, Deliver, Return, Shutdown, Attach, RequestRouteLoad, SendVisibilityChanged, Absorb, SystemSlotted,
         SubmitCapabilityCompletion, UnbindCapabilityRuntime, NextIo, Start, AbsorbIo;
    match a
    case DeliverToGui(valid, outcome) =>
      if s.toGui != [] { DeliverySlotted(s, valid, outcome); } else { StaySlotted(s, s); }
    case ReturnFromObserver(_, _, _, _) =>
      if s.frames != [] { ReturnSlotted(s, a); } else { StaySlotted(s, s); }
    case _ =>
      if OnGuiThread(a) {
        CallSlotted(s, a);
      } else {
        AgentSlotted(s, a);
        StaySlotted(s, Next(s, a));
      }
  }

  lemma StaySlotted(s: System, t: System)
    requires t.gui == s.gui && t.outstanding == s.outstanding
    ensures SystemSlotted(s, t, s.outstanding, s.gui.slot, [])
  {}

  lemma AgentSlotted(s: System, a: Action)
    requires !OnGuiThread(a)
    ensures Next(s, a).gui == s.gui && Next(s, a).outstanding == s.outstanding
  {
    hide Start, SendCommand, ResumeIo, BeginIoShutdown, AbortIo, PollSession, SendDeadlineFires, ShutdownDeadlineFires, CompleteSend,
         CompleteShutdownSend;
  }
}
