/**
 The composed worker session: controller, IO agent, the two queues between them,
 the observers the controller has called, and the capability runtime.  Every
 interleaving of calls, deliveries, timers and pipe reports is a run of `Next`.
 */
module SessionSystem {
  import opened Common
  import opened SessionTypes
  import opened SessionController
  import opened SessionIo

  /**
   `frames` are the controller activations waiting for an observer, `outstanding`
   the dispatches the capability runtime has not completed.  The last four fields
   are history of the current session: the value of the command counter at its
   start, the ids of the commands that reached the IO agent, every route load
   requested and the loads whose matching response has arrived.
   */
  datatype System = System(
    gui: Gui,
    io: Option<Io>,
    toIo: seq<IoEvent>,
    toGui: seq<GuiEvent>,
    frames: seq<Frame>,
    outstanding: seq<Dispatch>,
    base: nat,
    delivered: seq<nat>,
    requested: map<nat, string>,
    answered: set<nat>)

  const InitialSystem := System(InitialGui, None, [], [], [], [], 0, [], map[], {})

  datatype Action =
    | CallRequestRouteLoad(route: string, valid: bool)
    | CallSendVisibility(visible: bool)
    | CallShutdown(hasReason: bool)
    | CallAttach(authority: Option<Authority>, outcome: StartOutcome)
    | CallUnbind(bound: Authority)
    | DestroyRuntime
    | CompleteDispatch(index: nat, hasUse: bool, result: BrokerResult, valid: bool)
    | DeliverToGui(valid: bool, outcome: StartOutcome)
    | ReturnFromObserver(navigation: Navigation, hasUse: bool, valid: bool, loadValid: bool)
    | StartIo
    | DeliverToIo(accepted: bool)
    | FirePollTimer
    | FireSendDeadline
    | FireShutdownDeadline
    | CompletePipeWrite(commandId: nat, capabilitySend: bool, status: WriteStatus)
    | CompleteShutdownWrite(written: bool)
    | PeerSends(received: Received)

  function Flushed(c: Gui): Gui {
    c.(out := c.out.(posted := [], selfPosted := [], dispatched := []))
  }

  /** The controller has run to `c`, opening `frames`: its queued calls leave it. */
  function Absorb(s: System, c: Gui, frames: seq<Frame>): System {
    if c.life.generation != s.gui.life.generation then Renew(s, c)
    else
      s.(gui := Flushed(c),
         io := if c.life.hasIo then s.io else None,
         toIo := if c.life.hasIo then s.toIo + c.out.posted else [],
         toGui := s.toGui + c.out.selfPosted,
         frames := s.frames + frames,
         outstanding := s.outstanding + c.out.dispatched,
         requested := s.requested + c.routes.loads)
  }

  /** A new session generation: if it runs, it has its own agent and an empty queue. */
  function Renew(s: System, c: Gui): System {
    s.(gui := Flushed(c),
       io := if c.life.hasIo then Some(NewIo(c.life.generation, c.slot.authority)) else None,
       toIo := [],
       base := c.queue.nextCommand,
       delivered := [],
       requested := map[],
       answered := {})
  }

  function AbsorbIo(s: System, io: Io): System {
    s.(io := Some(io.(emitted := [])), toGui := s.toGui + io.emitted)
  }

  /** The first event queued for the GUI thread is handled. */
  function Deliver(s: System, e: GuiEvent, valid: bool, outcome: StartOutcome): System {
    var c := s.gui;
    match e
    case NavigationRequested(generation, requestId, route) =>
      var (d, frames) := NavigationArrives(c, generation, requestId, route, valid);
      Absorb(s, d, frames)
    case RouteLoadResponse(generation, loadId, ok, route) =>
      var (d, frames) := RouteResponseArrives(c, generation, loadId, ok, route);
      var matches := generation == c.life.generation && ok && loadId in s.requested && s.requested[loadId] == route;
      Absorb(s.(answered := if matches then s.answered + {loadId} else s.answered), d, frames)
    case CapabilityRequested(authority, generation, requestId) =>
      var (d, frames) := CapabilityArrives(c, authority, generation, requestId);
      Absorb(s, d, frames)
    case CommandFinished(generation, commandId, success, published, error) =>
      var (d, frames) := CommandFinishes(c, generation, commandId, success, published, error);
      Absorb(s, d, frames)
    case SessionFailed(generation, error) => Absorb(s, SessionFailureArrives(c, generation, error), [])
    case ShutdownFinished(generation) => Absorb(s, ShutdownFinishes(c, generation), [])
    case PostedFailure(generation, error) => Absorb(s, SessionFailureArrives(c, generation, error), [])
    case ThreadFinished(generation) => Absorb(s, ThreadFinishes(c, generation, outcome), [])
  }

  /** The innermost observer returns and the controller activation it interrupted carries on. */
  function Return(s: System, f: Frame, navigation: Navigation, hasUse: bool, valid: bool, loadValid: bool): System {
    var c := s.gui;
    match f
    case Navigating(generation, requestId, route) =>
      Absorb(s, NavigationReturns(c, generation, requestId, route, navigation, valid, loadValid), [])
    case Acknowledging(generation) => Absorb(s, AcknowledgementReturns(c, generation), [])
    case ObservingCapability(authority, generation, requestId) =>
      Absorb(s, CapabilityObserved(c, authority, generation, requestId, hasUse, valid), [])
    case ReportingSent(generation, resume) => Absorb(s, SentReportReturns(c, generation, resume), [])
  }

  /** The first call queued for the IO thread is made. */
  function DeliverIo(s: System, io: Io, e: IoEvent, accepted: bool): System {
    match e
    case SendMessage(generation, command) =>
      AbsorbIo(s.(delivered := s.delivered + [command.id]), SendCommand(io, generation, command, accepted))
    case ResumePolling(generation) => AbsorbIo(s, ResumeIo(io, generation))
    case BeginShutdown(generation) => AbsorbIo(s, BeginIoShutdown(io, generation, accepted))
    case Abort(generation) => AbsorbIo(s, AbortIo(io, generation))
  }

  /** Request ids are validated as non-empty tokens before a message is handed on. */
  predicate WellFormed(received: Received) {
    received.CapabilityRequest? ==> received.requestId != ""
  }

  /** One step.  An action that is not enabled leaves the system as it is. */
  function Next(s: System, a: Action): System {
    match a
    case CallRequestRouteLoad(route, valid) => Absorb(s, RequestRouteLoad(s.gui, route, valid).0, [])
    case CallSendVisibility(visible) => Absorb(s, SendVisibilityChanged(s.gui, visible).0, [])
    case CallShutdown(hasReason) => Absorb(s, Shutdown(s.gui, hasReason).0, [])
    case CallAttach(authority, outcome) => Absorb(s, Attach(s.gui, authority, outcome).0, [])
    case CallUnbind(bound) => Absorb(s, UnbindCapabilityRuntime(s.gui, bound), [])
    case DestroyRuntime => s.(gui := s.gui.(slot := s.gui.slot.(runtimeBound := false)))
    case CompleteDispatch(index, hasUse, result, valid) =>
      if index >= |s.outstanding| then s
      else
        Absorb(s.(outstanding := s.outstanding[..index] + s.outstanding[index + 1..]),
               SubmitCapabilityCompletion(s.gui, s.outstanding[index], hasUse, result, valid).0, [])
    case DeliverToGui(valid, outcome) =>
      if s.toGui == [] then s else Deliver(s.(toGui := s.toGui[1..]), s.toGui[0], valid, outcome)
    case ReturnFromObserver(navigation, hasUse, valid, loadValid) =>
      if s.frames == [] then s
      else
        var top := |s.frames| - 1;
        Return(s.(frames := s.frames[..top]), s.frames[top], navigation, hasUse, valid, loadValid)
    case PeerSends(received) =>
      if s.io.None? || !WellFormed(received) then s
      else s.(io := Some(s.io.value.(incoming := s.io.value.incoming + [received])))
    case StartIo =>
      if s.io.None? || s.io.value.started then s else AbsorbIo(s, Start(s.io.value))
    case _ =>
      if s.io.None? || !s.io.value.started then s else NextIo(s, s.io.value, a)
  }

  function NextIo(s: System, io: Io, a: Action): System {
    match a
    case DeliverToIo(accepted) =>
      if s.toIo == [] then s else DeliverIo(s.(toIo := s.toIo[1..]), io, s.toIo[0], accepted)
    case FirePollTimer => if io.pollTimer then AbsorbIo(s, PollSession(io)) else s
    case FireSendDeadline => AbsorbIo(s, SendDeadlineFires(io))
    case FireShutdownDeadline => AbsorbIo(s, ShutdownDeadlineFires(io))
    case CompletePipeWrite(commandId, capabilitySend, status) =>
      if commandId !in s.delivered then s
      else AbsorbIo(s, CompleteSend(io, io.generation, commandId, capabilitySend, status))
    case CompleteShutdownWrite(written) =>
      if io.stopping then AbsorbIo(s, CompleteShutdownSend(io, io.generation, written)) else s
    case _ => s
  }

  function Run(s: System, actions: seq<Action>): System {
    Iterate(Next, s, actions)
  }

  /** The states that a run passes through, from the initial one on. */
  ghost predicate Trace(states: seq<System>, actions: seq<Action>) {
    && |states| == |actions| + 1 && states[0] == InitialSystem
    && forall i {:trigger actions[i]} :: 0 <= i < |actions| ==> states[i + 1] == Next(states[i], actions[i])
  }

  ghost predicate Reachable(s: System) {
    exists states, actions :: Trace(states, actions) && states[|actions|] == s
  }

  // ---- What is counted -------------------------------------------------------------

  predicate Resuming(c: Command) { c.resumePollingAfter }

  predicate Completing(c: Command) { c.capabilityRequestId != "" }

  predicate IsSend(e: IoEvent) { e.SendMessage? }

  predicate IsResume(e: IoEvent) { e.ResumePolling? }

  /** Events of session `g` that the GUI must answer before polling goes on. */
  function AwaitedEvent(g: nat): GuiEvent -> bool {
    (e: GuiEvent) => (e.NavigationRequested? || e.RouteLoadResponse?) && e.generation == g
  }

  function FinishedEvent(g: nat): GuiEvent -> bool {
    (e: GuiEvent) => e.CommandFinished? && e.generation == g
  }

  /** Controller activations of session `g` that still have to answer such an event. */
  function AwaitedFrame(g: nat): Frame -> bool {
    (f: Frame) => (f.Navigating? || f.Acknowledging?) && f.generation == g
  }

  function DispatchOf(g: nat): Dispatch -> bool {
    (d: Dispatch) => d.generation == g
  }

  function ActiveIs(q: Queue, p: Command -> bool): nat {
    if q.active.Some? && p(q.active.value) then 1 else 0
  }

  /** The commands, queued or in flight, that satisfy `p`. */
  function Commands(q: Queue, p: Command -> bool): nat {
    Count(q.outbound, p) + ActiveIs(q, p)
  }

  /** The resume tokens of session `g`. */
  function ResumeTokens(g: nat, q: Queue, toIo: seq<IoEvent>, toGui: seq<GuiEvent>, frames: seq<Frame>): nat {
    Count(toGui, AwaitedEvent(g)) + Count(frames, AwaitedFrame(g)) + Commands(q, Resuming) + Count(toIo, IsResume)
  }

  /** Places where the command in flight can be: on its way out, at the pipe, or on its way back. */
  function SendTokens(g: nat, pending: nat, toIo: seq<IoEvent>, toGui: seq<GuiEvent>): nat {
    Count(toIo, IsSend) + (if pending != 0 then 1 else 0) + Count(toGui, FinishedEvent(g))
  }

  // ---- The invariant ---------------------------------------------------------------

  predicate Shape(s: System) {
    var g := s.gui.life.generation;
    && s.gui == Flushed(s.gui)
    && (s.gui.life.hasIo <==> s.io.Some?)
    && (s.io.Some? ==> s.io.value.generation == g && s.io.value.emitted == [])
    && (s.io.None? ==> s.toIo == [])
    && (forall e <- s.toIo :: e.generation == g)
    && (forall e <- s.toGui :: e.generation <= g)
    && (forall f <- s.frames :: f.generation <= g)
    && (forall d <- s.outstanding :: d.generation <= g)
    && (s.gui.life.phase == Running || s.gui.life.pendingSession ==> s.gui.life.hasIo)
    && (s.gui.life.cleanupFinal == Detached || s.gui.life.cleanupFinal == Failed)
  }

  /** A running session is not being stopped, and a closed pipe is about to be reported. */
  predicate Lively(life: Life, io: Io, toIo: seq<IoEvent>, toGui: seq<GuiEvent>) {
    && !life.stopRequested && !life.pendingSession && !io.stopping && !io.shutdownDeadline
    && (forall e <- toIo :: e.SendMessage? || e.ResumePolling?)
    && (forall e <- toGui | e.generation == life.generation :: !e.ThreadFinished? && !e.ShutdownFinished?)
    && (io.terminal ==> exists e <- toGui :: e.SessionFailed? && e.generation == life.generation)
    && (io.pollTimer <==> io.started && !io.terminal && !io.awaitingGui)
    && (forall r <- io.incoming :: WellFormed(r))
  }

  /** `held` resume tokens are in the hands of the step being taken. */
  predicate Polling(g: nat, q: Queue, io: Io, toIo: seq<IoEvent>, toGui: seq<GuiEvent>, frames: seq<Frame>, held: nat) {
    && (!io.terminal ==> ResumeTokens(g, q, toIo, toGui, frames) + held == if io.awaitingGui then 1 else 0)
    && (!io.started ==> !io.awaitingGui)
    && (forall c <- q.outbound :: Resuming(c) ==> !Completing(c))
    && (q.active.Some? && Resuming(q.active.value) ==> !Completing(q.active.value))
    && (forall f <- frames :: f.ReportingSent? && f.generation == g ==> !f.resume)
  }

  predicate Sending(g: nat, q: Queue, io: Io, toIo: seq<IoEvent>, toGui: seq<GuiEvent>, base: nat, delivered: seq<nat>) {
    && QueueLength(q) <= MaxQueuedCommands
    && base + |delivered| + Count(toIo, IsSend) + |q.outbound| == q.nextCommand
    && (forall i :: 0 <= i < |delivered| ==> delivered[i] == base + 1 + i)
    && (forall i :: 0 <= i < |q.outbound| ==> q.outbound[i].id == q.nextCommand - |q.outbound| + 1 + i)
    && (q.active.Some? ==> q.active.value.id == q.nextCommand - |q.outbound|)
    && SendTokens(g, io.pendingCommand, toIo, toGui) <= (if q.active.Some? then 1 else 0)
    && (!io.terminal ==> SendTokens(g, io.pendingCommand, toIo, toGui) == if q.active.Some? then 1 else 0)
    && (io.pendingCommand != 0 ==> q.active.Some? && io.pendingCommand == q.active.value.id)
    && (forall e <- toIo :: e.SendMessage? ==> q.active.Some? && e.command.id == q.active.value.id)
    && (forall e <- toGui :: e.CommandFinished? && e.generation == g ==>
                               q.active.Some? && e.commandId == q.active.value.id)
  }

  predicate Loading(r: Routes, requested: map<nat, string>, answered: set<nat>) {
    && |r.loads| <= MaxQueuedCommands
    && (forall id <- r.loads :: id in requested && requested[id] == r.loads[id])
    && (forall id <- requested :: 1 <= id <= r.nextLoad && requested[id] != "" && (id in r.loads || id in answered))
    && (r.latestId == 0 ==> r.loads == map[])
    && (r.latestId != 0 ==>
          && r.latestId in requested && r.latestRoute == requested[r.latestId]
          && (forall id <- requested :: id <= r.latestId)
          && (r.latestAcknowledged <==> r.latestId !in r.loads))
  }

  predicate Authorised(authority: Option<Authority>, c: Command) {
    && (c.authority.Some? <==> c.hasUse)
    && (c.authority.Some? ==> c.authority == authority)
  }

  /** The command may complete the request in the slot, and only that one. */
  predicate Admissible(authority: Option<Authority>, t: Slot, c: Command) {
    Authorised(authority, c) && (Completing(c) ==> c.capabilityRequestId == t.activeRequest)
  }

  predicate SingleFlight(g: nat, t: Slot, q: Queue, authority: Option<Authority>, outstanding: seq<Dispatch>) {
    && (t.authority.Some? ==> t.authority == authority)
    && (t.runtimeBound ==> t.authority.Some?)
    && Commands(q, Completing) + Count(outstanding, DispatchOf(g)) <= (if t.activeRequest == "" then 0 else 1)
    && (forall c <- q.outbound :: Admissible(authority, t, c))
    && (q.active.Some? ==> Admissible(authority, t, q.active.value))
    && (forall d <- outstanding :: d.generation == g ==> d.requestId == t.activeRequest && authority == Some(d.authority))
  }

  /** Every capability message in transit speaks for the session's own authority. */
  predicate InTransit(g: nat, authority: Option<Authority>, toIo: seq<IoEvent>, toGui: seq<GuiEvent>, frames: seq<Frame>) {
    && (forall e <- toIo :: e.SendMessage? ==> Authorised(authority, e.command))
    && (forall e <- toGui :: e.CapabilityRequested? && e.generation == g ==> e.authority == authority && e.requestId != "")
    && (forall f <- frames :: f.ObservingCapability? && f.generation == g ==> f.authority == authority && f.requestId != "")
  }

  predicate RunningInv(s: System, held: nat)
    requires s.io.Some?
  {
    var c, io, g := s.gui, s.io.value, s.gui.life.generation;
    && Lively(c.life, io, s.toIo, s.toGui)
    && Polling(g, c.queue, io, s.toIo, s.toGui, s.frames, held)
    && Sending(g, c.queue, io, s.toIo, s.toGui, s.base, s.delivered)
    && Loading(c.routes, s.requested, s.answered)
    && SingleFlight(g, c.slot, c.queue, io.authority, s.outstanding)
    && InTransit(g, io.authority, s.toIo, s.toGui, s.frames)
  }

  predicate Holds(s: System, held: nat) {
    Shape(s) && (s.gui.life.phase == Running ==> RunningInv(s, held))
  }

  predicate Inv(s: System) {
    Holds(s, 0)
  }
}
