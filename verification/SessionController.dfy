/**
 The GUI-side session controller.  The functions give each handler's effect on the
 controller's state; the class in WorkerSession is the controller itself, which
 updates its fields in place and is proved to have exactly those effects.
 */
module SessionController {
  import opened Common
  import opened SessionTypes

  /** Where the controller is in the life of its session. */
  datatype Life = Life(
    phase: Phase,
    cleanupFinal: Phase,
    generation: nat,
    hasIo: bool,
    stopRequested: bool,
    pendingSession: bool,
    pendingBinding: Option<Authority>,
    lastError: Error)

  /** The outbound queue with its one command in flight. */
  datatype Queue = Queue(outbound: seq<Command>, active: Option<Command>, nextCommand: nat)

  /** The route loads the worker has not answered yet, and the newest one. */
  datatype Routes = Routes(
    loads: map<nat, string>,
    latestId: nat,
    latestRoute: string,
    latestAcknowledged: bool,
    nextLoad: nat)

  /** The capability runtime's binding and the request that occupies its slot. */
  datatype Slot = Slot(runtimeBound: bool, authority: Option<Authority>, activeRequest: string)

  /**
   What the controller has done to the outside: calls queued for the IO thread and
   for its own thread, requests handed to the capability runtime, signals emitted.
   */
  datatype Outbox = Outbox(
    posted: seq<IoEvent>,
    selfPosted: seq<GuiEvent>,
    dispatched: seq<Dispatch>,
    signals: seq<Signal>)

  datatype Gui = Gui(life: Life, queue: Queue, routes: Routes, slot: Slot, out: Outbox)

  const NoSlot := Slot(false, None, "")

  const InitialGui := Gui(Life(Detached, Detached, 0, false, false, false, None, NoError),
                          Queue([], None, 0), Routes(map[], 0, "", false, 0), NoSlot, Outbox([], [], [], []))

  function QueueLength(q: Queue): nat {
    |q.outbound| + (if q.active.Some? then 1 else 0)
  }

  function ClearQueue(q: Queue): Queue {
    q.(outbound := [], active := None)
  }

  function ClearLoads(r: Routes): Routes {
    Routes(map[], 0, "", false, r.nextLoad)
  }

  function Post(c: Gui, e: IoEvent): Gui {
    c.(out := c.out.(posted := c.out.posted + [e]))
  }

  function Signalled(c: Gui, signal: Signal): Gui {
    c.(out := c.out.(signals := c.out.signals + [signal]))
  }

  function RequestIoStop(c: Gui): Gui {
    if c.life.stopRequested || !c.life.hasIo then c
    else Post(c.(life := c.life.(stopRequested := true)), Abort(c.life.generation))
  }

  /** Everything that belongs to the running session is dropped. */
  function Drop(c: Gui, life: Life): Gui {
    c.(life := life, queue := ClearQueue(c.queue), routes := ClearLoads(c.routes), slot := NoSlot)
  }

  function FailClosed(c: Gui, error: Error): Gui {
    if c.life.phase == Failed || c.life.phase == Detached then c
    else
      var failed := Drop(c, c.life.(phase := Failed, lastError := error, pendingBinding := None,
                                    cleanupFinal := Failed));
      Signalled(RequestIoStop(failed), FailedWith(error, c.life.generation))
  }

  function PumpOutbound(c: Gui): Gui {
    if c.life.phase != Running || !c.life.hasIo || c.queue.active.Some? || c.queue.outbound == [] then c
    else
      var head := c.queue.outbound[0];
      Post(c.(queue := c.queue.(active := Some(head), outbound := c.queue.outbound[1..])),
           SendMessage(c.life.generation, head))
  }

  function ResumeIoPolling(c: Gui): Gui {
    if !c.life.hasIo then c else Post(c, ResumePolling(c.life.generation))
  }

  /** The command gets the next id. */
  function Enqueue(c: Gui, command: Command): Gui {
    var id := c.queue.nextCommand + 1;
    PumpOutbound(c.(queue := c.queue.(nextCommand := id, outbound := c.queue.outbound + [command.(id := id)])))
  }

  function PlainCommand(message: Message, resume: bool): Command {
    Command(0, message, "", false, resume, "", None, false)
  }

  function EnqueueMessage(c: Gui, message: Message, resume: bool): (Gui, bool) {
    if QueueLength(c.queue) >= MaxQueuedCommands then (c, false)
    else (Enqueue(c, PlainCommand(message, resume)), true)
  }

  /** `valid` says whether the route can be put into a protocol message. */
  function EnqueueRouteLoad(c: Gui, route: string, valid: bool): (Gui, bool) {
    if route == "" || |c.routes.loads| >= MaxQueuedCommands || QueueLength(c.queue) >= MaxQueuedCommands then (c, false)
    else
      var id := c.routes.nextLoad + 1;
      if !valid then (c.(routes := c.routes.(nextLoad := id)), false)
      else
        var tracked := c.(routes := Routes(c.routes.loads[id := route], id, route, false, id));
        (Enqueue(tracked, Command(0, RouteLoad(id, route), route, true, false, "", None, false)), true)
  }

  function StartSession(c: Gui, authority: Option<Authority>, outcome: StartOutcome): (Gui, bool) {
    var next := c.life.generation + 1;
    if c.life.hasIo then (c, false)
    else if authority.Some? && (outcome == RuntimeGone || authority.value.sessionGeneration != next) then
      (c.(life := c.life.(lastError := InvalidCapabilityBinding)), false)
    else if outcome == NoDispatchContext then
      (c.(life := c.life.(lastError := InvalidDispatchContext)), false)
    else if outcome == BindRefused && authority.Some? then
      (c.(life := c.life.(generation := next, lastError := CapabilityBindFailed),
          slot := Slot(false, None, c.slot.activeRequest)), false)
    else if outcome == TransferRefused then
      (Drop(c, c.life.(generation := next, phase := Failed, lastError := IoTransferFailed)), false)
    else
      var started := Drop(c, c.life.(generation := next, hasIo := true, cleanupFinal := Failed, stopRequested := false,
                                     phase := Running, lastError := NoError));
      (started.(slot := Slot(authority.Some?, authority, "")), true)
  }

  function Attach(c: Gui, authority: Option<Authority>, outcome: StartOutcome): (Gui, bool) {
    if authority.Some? && authority.value.sessionGeneration != c.life.generation + 1 then
      (c.(life := c.life.(lastError := InvalidCapabilityBinding)), false)
    else if c.life.hasIo then
      var waiting := c.life.(pendingSession := true, pendingBinding := authority, cleanupFinal := Detached,
                             phase := ShuttingDown);
      (RequestIoStop(Drop(c, waiting)), true)
    else StartSession(c, authority, outcome)
  }

  function Shutdown(c: Gui, hasReason: bool): (Gui, bool) {
    if c.life.phase != Running || !c.life.hasIo || !hasReason then (c, false)
    else
      (Post(Drop(c, c.life.(phase := ShuttingDown, cleanupFinal := Detached)), BeginShutdown(c.life.generation)), true)
  }

  function RequestRouteLoad(c: Gui, route: string, valid: bool): (Gui, bool) {
    if c.life.phase != Running then (c, false) else EnqueueRouteLoad(c, route, valid)
  }

  function SendVisibilityChanged(c: Gui, visible: bool): (Gui, bool) {
    if c.life.phase != Running then (c, false) else EnqueueMessage(c, VisibilityChanged(visible), false)
  }

  function UnbindCapabilityRuntime(c: Gui, authority: Authority): Gui {
    if c.slot.authority != Some(authority) then c
    else c.(slot := Slot(false, None, c.slot.activeRequest))
  }

  predicate Current(c: Gui, generation: nat) {
    generation == c.life.generation && c.life.phase == Running
  }

  /** A reply that asks for polling to resume; a session that cannot queue it fails. */
  function ReplyAndResume(c: Gui, requestId: string, valid: bool): Gui {
    var (queued, ok) := if valid then EnqueueMessage(c, NavigationReply(requestId, false), true) else (c, false);
    if ok then queued else FailClosed(queued, ResponseQueueFailed)
  }

  /** handleNavigationRequest up to its call of the navigation callback. */
  function NavigationArrives(c: Gui, generation: nat, requestId: string, route: string, valid: bool)
    : (Gui, seq<Frame>)
  {
    if !Current(c, generation) then (c, [])
    else if c.routes.loads != map[] then (ReplyAndResume(c, requestId, valid), [])
    else (c, [Navigating(generation, requestId, route)])
  }

  /** The command queued last, or else the one in flight, is to resume polling. */
  function MarkResume(c: Gui): Gui {
    var q := c.queue;
    if q.outbound != [] then
      var last := |q.outbound| - 1;
      c.(queue := q.(outbound := q.outbound[last := q.outbound[last].(resumePollingAfter := true)]))
    else if q.active.Some? then c.(queue := q.(active := Some(q.active.value.(resumePollingAfter := true))))
    else c
  }

  /** handleNavigationRequest from the callback's return; the reply and the route load may each turn out invalid. */
  function NavigationReturns(c: Gui, generation: nat, requestId: string, route: string,
                             navigation: Navigation, valid: bool, loadValid: bool): Gui
  {
    if navigation == Threw then FailClosed(c, NavigationCallbackFailed)
    else if !Current(c, generation) then c
    else if navigation == Refused then ReplyAndResume(c, requestId, valid)
    else
      var (replied, ok) := if valid then EnqueueMessage(c, NavigationReply(requestId, true), false) else (c, false);
      var (loading, ok') := if ok then EnqueueRouteLoad(replied, route, loadValid) else (replied, false);
      if ok' then MarkResume(loading) else FailClosed(loading, OutboundQueueFull)
  }

  function RouteResponseArrives(c: Gui, generation: nat, loadId: nat, ok: bool, route: string): (Gui, seq<Frame>) {
    var r := c.routes;
    if !Current(c, generation) then (c, [])
    else if loadId !in r.loads then (FailClosed(c, UnexpectedResponse), [])
    else if !ok || r.loads[loadId] != route then (FailClosed(c, RouteLoadRejected), [])
    else
      var rest := r.(loads := r.loads - {loadId},
                     latestAcknowledged := r.latestAcknowledged || loadId == r.latestId);
      if rest.loads != map[] then (ResumeIoPolling(c.(routes := rest)), [])
      else if !rest.latestAcknowledged || rest.latestId == 0 || rest.latestRoute == "" then
        (FailClosed(c.(routes := rest), RouteLoadCompletionMismatch), [])
      else
        (Signalled(c.(routes := ClearLoads(rest)), RouteLoadAcknowledged(rest.latestRoute, generation)),
         [Acknowledging(generation)])
  }

  function AcknowledgementReturns(c: Gui, generation: nat): Gui {
    if !Current(c, generation) then c else ResumeIoPolling(c)
  }

  function CapabilityArrives(c: Gui, authority: Option<Authority>, generation: nat, requestId: string)
    : (Gui, seq<Frame>)
  {
    if !Current(c, generation) then (c, []) else (c, [ObservingCapability(authority, generation, requestId)])
  }

  predicate RefusesResponse(c: Gui, authority: Option<Authority>, hasUse: bool, generation: nat, requestId: string,
                            result: BrokerResult, completes: bool)
  {
    var t := c.slot;
    || !Current(c, generation)
    || requestId == ""
    || (completes && requestId != t.activeRequest)
    || (!completes && (t.activeRequest == "" || requestId == t.activeRequest || result.ok || result.code != Busy))
    || (authority.Some? && (!hasUse || t.authority != authority || !t.runtimeBound))
    || (authority.None? && (t.authority.Some? || hasUse || t.runtimeBound || result.ok || result.code != Denied))
  }

  function PostFailure(c: Gui, generation: nat, error: Error): Gui {
    c.(out := c.out.(selfPosted := c.out.selfPosted + [PostedFailure(generation, error)]))
  }

  function QueueCapabilityResponse(c: Gui, authority: Option<Authority>, hasUse: bool, generation: nat,
                                   requestId: string, result: BrokerResult, completes: bool, valid: bool): (Gui, bool)
  {
    if RefusesResponse(c, authority, hasUse, generation, requestId, result, completes) then (c, false)
    else if !valid then (PostFailure(c, generation, ResponseInvalid), false)
    else if QueueLength(c.queue) >= MaxQueuedCommands then (PostFailure(c, generation, ResponseQueueFailed), false)
    else
      (Enqueue(c, Command(0, CapabilityReply(requestId, result), "", false, false,
                          if completes then requestId else "", authority, hasUse)), true)
  }

  /** handleCapabilityRequest from its observers' return; `use` says whether a response use can be acquired. */
  function CapabilityObserved(c: Gui, authority: Option<Authority>, generation: nat, requestId: string,
                              use: bool, valid: bool): Gui
  {
    var t := c.slot;
    if !Current(c, generation) then c
    else if t.activeRequest != "" then
      if !t.runtimeBound || t.authority.None? || authority != t.authority then
        FailClosed(c, CapabilityAuthorityMismatch)
      else
        var (queued, ok) :=
          if use then QueueCapabilityResponse(c, authority, true, generation, requestId, BrokerResult(false, Busy),
                                              false, valid)
          else (c, false);
        if ok then queued else FailClosed(queued, ResponseQueueFailed)
    else
      var claimed := c.(slot := t.(activeRequest := requestId));
      if !t.runtimeBound || t.authority.None? then
        if authority.Some? then FailClosed(c, CapabilityAuthorityMismatch)
        else QueueCapabilityResponse(claimed, None, false, generation, requestId, BrokerResult(false, Denied),
                                     true, valid).0
      else if authority != t.authority then FailClosed(c, CapabilityAuthorityMismatch)
      else
        var dispatch := Dispatch(generation, requestId, t.authority.value);
        claimed.(out := claimed.out.(dispatched := claimed.out.dispatched + [dispatch]))
  }

  function SubmitCapabilityCompletion(c: Gui, done: Dispatch, hasUse: bool, result: BrokerResult, valid: bool)
    : (Gui, bool)
  {
    if !hasUse then (c, false)
    else QueueCapabilityResponse(c, Some(done.authority), true, done.generation, done.requestId, result, true, valid)
  }

  function CommandFinishes(c: Gui, generation: nat, commandId: nat, success: bool, published: bool, error: Error)
    : (Gui, seq<Frame>)
  {
    if !Current(c, generation) || c.queue.active.None? || c.queue.active.value.id != commandId then (c, [])
    else
      var resume := c.queue.active.value.resumePollingAfter;
      var completed := c.queue.active.value.capabilityRequestId;
      var idle := c.(queue := c.queue.(active := None));
      if !success then (FailClosed(idle, if error == NoError then SendFailed else error), [])
      else if completed != "" && completed == c.slot.activeRequest then
        var free := idle.(slot := idle.slot.(activeRequest := ""));
        if published then
          (Signalled(free, CapabilityResponseSent(completed, generation)), [ReportingSent(generation, resume)])
        else (PumpAndResume(free, resume), [])
      else (PumpAndResume(idle, resume), [])
  }

  function PumpAndResume(c: Gui, resume: bool): Gui {
    var pumped := PumpOutbound(c);
    if resume then ResumeIoPolling(pumped) else pumped
  }

  function SentReportReturns(c: Gui, generation: nat, resume: bool): Gui {
    if !Current(c, generation) then c else PumpAndResume(c, resume)
  }

  function SessionFailureArrives(c: Gui, generation: nat, error: Error): Gui {
    if generation == c.life.generation then FailClosed(c, error) else c
  }

  function ShutdownFinishes(c: Gui, generation: nat): Gui {
    if generation != c.life.generation || c.life.phase != ShuttingDown then c
    else
      RequestIoStop(c.(life := c.life.(cleanupFinal := Detached), queue := ClearQueue(c.queue),
                       routes := ClearLoads(c.routes)))
  }

  function ThreadFinishes(c: Gui, generation: nat, outcome: StartOutcome): Gui {
    if generation != c.life.generation || !c.life.hasIo then c
    else
      var life := c.life.(hasIo := false, stopRequested := false);
      if !c.life.pendingSession then
        Signalled(Drop(c, life.(phase := life.cleanupFinal)), SessionDetached(generation))
      else
        var dropped := Drop(c, life.(pendingSession := false, pendingBinding := None, phase := Detached));
        var (started, ok) := StartSession(dropped, c.life.pendingBinding, outcome);
        if ok then started
        else
          Signalled(started.(life := started.life.(phase := Failed, lastError := ReattachFailed)),
                    FailedWith(ReattachFailed, started.life.generation))
  }
}
