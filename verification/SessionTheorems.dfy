/** What a composed worker session guarantees on every run. */
module SessionTheorems {
  import opened Common
  import opened SessionTypes
  import opened SessionController
  import opened SessionIo
  import opened SessionSystem
  import opened SessionInvariant
  import opened SessionIoInvariant

  lemma InitialInv()
    ensures Inv(InitialSystem) && Safe(InitialSystem)
  {}

  // ---- Failures that cannot happen --------------------------------------------------------

  /** Two failures the code guards against: a second send in flight and a burst of route loads that ends inconsistently. */
  predicate Impossible(error: Error) {
    error == ConcurrentSend || error == RouteLoadCompletionMismatch
  }

  predicate Clean(e: GuiEvent) {
    (e.CommandFinished? || e.SessionFailed? || e.PostedFailure?) ==> !Impossible(e.error)
  }

  /** In every phase, not only while running, at most one send is between the controller and the pipe. */
  predicate OneSend(s: System) {
    s.io.Some? ==> Count(s.toIo, IsSend) + (if s.io.value.pendingCommand != 0 then 1 else 0) <= 1
  }

  /** A finished shutdown is reported only by an agent that has closed. */
  predicate FinishedIsClosed(s: System) {
    s.io.Some? && !s.io.value.terminal ==>
      forall e <- s.toGui :: !(e.ShutdownFinished? && e.generation == s.gui.life.generation)
  }

  predicate Safe(s: System) {
    OneSend(s) && FinishedIsClosed(s) && !Impossible(s.gui.life.lastError) && forall e <- s.toGui :: Clean(e)
  }

  predicate IsAcknowledgement(signal: Signal) {
    signal.RouteLoadAcknowledged?
  }

  /**
   What any activation of the controller from `c` to `d` keeps: it fails only with
   possible errors, it announces at most one thing, which is not the end of a burst,
   and if it leaves the running phase it has sent at most what was not yet in flight.
   */
  predicate Tame(c: Gui, d: Gui) {
    && d.life.generation >= c.life.generation
    && (d.life.generation > c.life.generation && d.life.hasIo ==> d.life.phase == Running)
    && (Impossible(d.life.lastError) ==> Impossible(c.life.lastError))
    && (forall e <- d.out.selfPosted :: e.PostedFailure? && Clean(e))
    && (d.out.signals == c.out.signals
        || (d.out.signals != [] && d.out.signals[..|d.out.signals| - 1] == c.out.signals
            && !IsAcknowledgement(d.out.signals[|d.out.signals| - 1])))
    && (d.life.phase == Running
        || Count(d.out.posted, IsSend) <= (if c.life.phase == Running && c.queue.active.None? then 1 else 0))
  }

  lemma FailTame(c: Gui, d: Gui, error: Error)
    requires !Impossible(error) && d.out.signals == c.out.signals && d.life == c.life
    requires forall e <- d.out.selfPosted :: e.PostedFailure? && Clean(e)
    requires Count(d.out.posted, IsSend) <= (if c.life.phase == Running && c.queue.active.None? then 1 else 0)
    ensures Tame(c, FailClosed(d, error))
  {
    CountSnoc(d.out.posted, Abort(d.life.generation), IsSend);
  }

  /** Queuing a command sends at most one, and only if none is in flight. */
  lemma EnqueueTame(c: Gui, command: Command)
    requires c.out.posted == [] && c.out.selfPosted == []
    ensures var d := Enqueue(c, command);
      && d.life == c.life && d.out.signals == c.out.signals && d.out.selfPosted == []
      && Count(d.out.posted, IsSend) <= (if c.life.phase == Running && c.queue.active.None? then 1 else 0)
      && (c.life.phase == Running && c.life.hasIo ==> d.queue.active.Some?)
  {}

  lemma NavigationTame(c: Gui, generation: nat, requestId: string, route: string, navigation: Navigation, valid: bool,
                       loadValid: bool)
    requires c == Flushed(c)
    ensures Tame(c, NavigationArrives(c, generation, requestId, route, valid).0)
    ensures Tame(c, NavigationReturns(c, generation, requestId, route, navigation, valid, loadValid))
  {
    hide FailClosed, Tame, Enqueue;
    ReplyTame(c, requestId, valid);
    SameTame(c);
    FailTame(c, c, NavigationCallbackFailed);
    FailTame(c, c, OutboundQueueFull);
    var reply := PlainCommand(NavigationReply(requestId, true), false);
    EnqueueTame(c, reply);
    if Current(c, generation) && QueueLength(c.queue) < MaxQueuedCommands {
      AcceptedTame(c, Enqueue(c, reply), route, loadValid);
    }
  }

  lemma SameTame(c: Gui)
    requires c == Flushed(c)
    ensures Tame(c, c)
  {}

  lemma ReplyTame(c: Gui, requestId: string, valid: bool)
    requires c == Flushed(c)
    ensures c.life.phase == Running ==> Tame(c, ReplyAndResume(c, requestId, valid))
  {
    hide FailClosed, Enqueue;
    EnqueueTame(c, PlainCommand(NavigationReply(requestId, false), true));
    FailTame(c, c, ResponseQueueFailed);
  }

  /** The second half of an accepted navigation: its first half has already put a command in flight. */
  lemma AcceptedTame(c: Gui, d: Gui, route: string, valid: bool)
    requires c.life.phase == Running && d.life == c.life && d.out.signals == c.out.signals && d.out.selfPosted == []
    requires Count(d.out.posted, IsSend) <= (if c.queue.active.None? then 1 else 0)
    ensures var (e, ok) := EnqueueRouteLoad(d, route, valid);
      Tame(c, if ok then MarkResume(e) else FailClosed(e, OutboundQueueFull))
  {
    hide FailClosed;
    var (e, ok) := EnqueueRouteLoad(d, route, valid);
    if !ok { FailTame(c, e, OutboundQueueFull); }
  }

  lemma CapabilityTame(c: Gui, authority: Option<Authority>, hasUse: bool, generation: nat, requestId: string,
                       result: BrokerResult, completes: bool, valid: bool)
    requires c == Flushed(c)
    ensures var (d, ok) := QueueCapabilityResponse(c, authority, hasUse, generation, requestId, result, completes, valid);
      && Tame(c, d) && d.life == c.life && (ok ==> c.life.phase == Running)
      && (!ok ==> d.out.posted == [] && d.out.signals == c.out.signals && forall e <- d.out.selfPosted :: e.PostedFailure? && Clean(e))
  {
    hide Enqueue;
    EnqueueTame(c, Command(0, CapabilityReply(requestId, result), "", false, false,
                           if completes then requestId else "", authority, hasUse));
  }

  lemma ObservedTame(c: Gui, authority: Option<Authority>, generation: nat, requestId: string, use: bool, valid: bool)
    requires c == Flushed(c)
    ensures Tame(c, CapabilityObserved(c, authority, generation, requestId, use, valid))
  {
    hide FailClosed, QueueCapabilityResponse;
    FailTame(c, c, CapabilityAuthorityMismatch);
    FailTame(c, c, ResponseQueueFailed);
    var busy := BrokerResult(false, Busy);
    CapabilityTame(c, authority, true, generation, requestId, busy, false, valid);
    var (d, ok) := QueueCapabilityResponse(c, authority, true, generation, requestId, busy, false, valid);
    if !ok { FailTame(c, d, ResponseQueueFailed); }
    var claimed := c.(slot := c.slot.(activeRequest := requestId));
    CapabilityTame(claimed, None, false, generation, requestId, BrokerResult(false, Denied), true, valid);
  }

  lemma FinishTame(c: Gui, generation: nat, commandId: nat, success: bool, published: bool, error: Error)
    requires c == Flushed(c) && !Impossible(error)
    ensures Tame(c, CommandFinishes(c, generation, commandId, success, published, error).0)
  {
    hide FailClosed;
    if Current(c, generation) && c.queue.active.Some? && c.queue.active.value.id == commandId {
      FailTame(c, c.(queue := c.queue.(active := None)), if error == NoError then SendFailed else error);
    }
  }

  lemma StartTame(c: Gui, d: Gui, authority: Option<Authority>, outcome: StartOutcome)
    requires c == Flushed(c) && d.out == c.out && !d.life.hasIo && d.life.phase != Running
    requires d.life.lastError == c.life.lastError && d.life.generation == c.life.generation
    ensures Tame(c, StartSession(d, authority, outcome).0) && StartSession(d, authority, outcome).0.out == c.out
    ensures !StartSession(d, authority, outcome).1 ==> !StartSession(d, authority, outcome).0.life.hasIo
  {}

  lemma AttachTame(c: Gui, authority: Option<Authority>, outcome: StartOutcome)
    requires c == Flushed(c) && (!c.life.hasIo ==> c.life.phase != Running)
    ensures Tame(c, Attach(c, authority, outcome).0)
  {
    hide StartSession;
    if !c.life.hasIo { StartTame(c, c, authority, outcome); }
    CountSnoc([], Abort(c.life.generation), IsSend);
  }

  lemma ThreadTame(c: Gui, generation: nat, outcome: StartOutcome)
    requires c == Flushed(c)
    ensures Tame(c, ThreadFinishes(c, generation, outcome))
  {
    hide StartSession;
    var life := c.life.(hasIo := false, stopRequested := false, pendingSession := false, pendingBinding := None,
                        phase := Detached);
    StartTame(c, Drop(c, life), c.life.pendingBinding, outcome);
  }

  lemma StopTame(c: Gui, generation: nat, hasReason: bool, error: Error)
    requires c == Flushed(c) && !Impossible(error)
    ensures Tame(c, Shutdown(c, hasReason).0)
    ensures Tame(c, ShutdownFinishes(c, generation))
    ensures Tame(c, SessionFailureArrives(c, generation, error))
  {
    hide FailClosed;
    FailTame(c, c, error);
    CountSnoc([], Abort(c.life.generation), IsSend);
    CountSnoc([], BeginShutdown(c.life.generation), IsSend);
  }

  lemma CallTame(c: Gui, route: string, valid: bool, visible: bool, authority: Authority)
    requires c == Flushed(c)
    ensures Tame(c, RequestRouteLoad(c, route, valid).0)
    ensures Tame(c, SendVisibilityChanged(c, visible).0)
    ensures Tame(c, UnbindCapabilityRuntime(c, authority))
  {}

  lemma ReturnTame(c: Gui, generation: nat, resume: bool)
    requires c == Flushed(c)
    ensures Tame(c, AcknowledgementReturns(c, generation))
    ensures Tame(c, SentReportReturns(c, generation, resume))
  {}

  /** Only the last answer of a burst is announced, and then every requested load has been answered. */
  predicate Acknowledges(s: System, t: System) {
    && t.gui.routes.loads == map[]
    && t.gui.out.signals != []
    && var signal := t.gui.out.signals[|t.gui.out.signals| - 1];
       && signal.RouteLoadAcknowledged? && signal.generation == t.gui.life.generation
       && (forall id <- t.requested :: id in t.answered)
       && exists newest :: newest in t.requested && signal.route == t.requested[newest]
                           && forall id <- t.requested :: id <= newest
  }

  predicate Grows(before: seq<Signal>, after: seq<Signal>) {
    after == before || (after != [] && after[..|after| - 1] == before)
  }

  predicate Announces(s: System, t: System) {
    && Grows(s.gui.out.signals, t.gui.out.signals)
    && (t.gui.out.signals != s.gui.out.signals && IsAcknowledgement(t.gui.out.signals[|t.gui.out.signals| - 1])
        ==> Acknowledges(s, t))
  }

  /** The controller itself queues nothing for its own thread but failures, and it leaves the agent alone or drops it. */
  predicate Modest(s: System, t: System) {
    && (forall e <- t.toGui :: e in s.toGui || e.PostedFailure?)
    && t.gui.life.generation >= s.gui.life.generation
    && (t.gui.life.generation == s.gui.life.generation ==> t.io == s.io || t.io.None?)
  }

  /** With nothing in flight no send is on its way. */
  predicate IdleSends(s: System) {
    s.gui.life.phase == Running && s.gui.queue.active.None? && s.io.Some? ==>
      Count(s.toIo, IsSend) == 0 && s.io.value.pendingCommand == 0
  }

  lemma InvIdles(s: System)
    requires Inv(s)
    ensures IdleSends(s)
  {}

  lemma RunningOneSend(s: System)
    requires Inv(s) && s.gui.life.phase == Running
    ensures OneSend(s)
  {}

  lemma AbsorbFinished(s: System, c: Gui, frames: seq<Frame>)
    requires FinishedIsClosed(s) && Tame(s.gui, c) && Inv(Absorb(s, c, frames))
    ensures FinishedIsClosed(Absorb(s, c, frames))
  {
    hide Polling, Sending, Loading, SingleFlight, InTransit;
  }

  lemma AbsorbSafe(s: System, c: Gui, frames: seq<Frame>)
    requires Safe(s) && IdleSends(s) && Tame(s.gui, c) && Inv(Absorb(s, c, frames))
    ensures Safe(Absorb(s, c, frames)) && Announces(s, Absorb(s, c, frames)) && Modest(s, Absorb(s, c, frames))
  {
    AbsorbFinished(s, c, frames);
    hide RunningInv, FinishedIsClosed;
    var t := Absorb(s, c, frames);
    if c.life.phase == Running { RunningOneSend(t); }
    CountAppend(s.toIo, c.out.posted, IsSend);
  }

  /** The answer to a route load: a burst never ends inconsistently, and its end is announced truthfully. */
  lemma RouteResponseSafe(s: System, generation: nat, loadId: nat, ok: bool, route: string)
    requires Shape(s) && Safe(s) && IdleSends(s) && (Current(s.gui, generation) ==> Loading(s.gui.routes, s.requested, s.answered))
    requires Current(s.gui, generation) && ok && loadId in s.requested && s.requested[loadId] == route ==> loadId in s.answered
    requires var (d, frames) := RouteResponseArrives(s.gui, generation, loadId, ok, route); Inv(Absorb(s, d, frames))
    ensures var (d, frames) := RouteResponseArrives(s.gui, generation, loadId, ok, route);
      Safe(Absorb(s, d, frames)) && Announces(s, Absorb(s, d, frames)) && Modest(s, Absorb(s, d, frames))
  {
    hide RunningInv, FailClosed, Absorb, Announces, Safe, Loading, Inv;
    var c, r := s.gui, s.gui.routes;
    var (d, frames) := RouteResponseArrives(c, generation, loadId, ok, route);
    if !Current(c, generation) {
      SafeFacts(s);
      SameTame(c);
      AbsorbSafe(s, d, frames);
    } else if loadId !in r.loads || !ok || r.loads[loadId] != route {
      FailTame(c, c, if loadId in r.loads then RouteLoadRejected else UnexpectedResponse);
      AbsorbSafe(s, d, frames);
    } else {
      LoadingFacts(r, s.requested, s.answered);
      if Erased(r, loadId).loads == map[] {
        BurstEnds(r, s.requested, s.answered, loadId);
        AcknowledgementSafe(s, d, frames, Erased(r, loadId));
      } else {
        assert Tame(c, d);
        AbsorbSafe(s, d, frames);
      }
    }
  }

  lemma SafeFacts(s: System)
    requires Shape(s)
    ensures s.gui == Flushed(s.gui)
  {}

  lemma LoadingFacts(r: Routes, requested: map<nat, string>, answered: set<nat>)
    requires Loading(r, requested, answered)
    ensures forall id <- r.loads :: id in requested && requested[id] == r.loads[id]
  {}

  lemma AcknowledgementSafe(s: System, d: Gui, frames: seq<Frame>, rest: Routes)
    requires Shape(s) && Safe(s) && IdleSends(s) && Inv(Absorb(s, d, frames))
    requires rest.latestId in s.requested && rest.latestRoute == s.requested[rest.latestId]
    requires forall id <- s.requested :: id <= rest.latestId && id in s.answered
    requires d == Signalled(s.gui.(routes := ClearLoads(rest)),
                            RouteLoadAcknowledged(rest.latestRoute, s.gui.life.generation))
    ensures Safe(Absorb(s, d, frames)) && Announces(s, Absorb(s, d, frames)) && Modest(s, Absorb(s, d, frames))
  {
    hide RunningInv;
    var t := Absorb(s, d, frames);
    assert t.requested == s.requested && t.answered == s.answered;
    assert s.toIo + [] == s.toIo;
  }

  lemma DeliverSafe(s: System, valid: bool, outcome: StartOutcome)
    requires Inv(s) && Safe(s) && s.toGui != []
    ensures var t := Deliver(PopGui(s), s.toGui[0], valid, outcome); Safe(t) && Announces(PopGui(s), t) && Modest(PopGui(s), t)
  {
    hide RunningInv, Shape, Absorb, FailClosed, NavigationArrives, RouteResponseArrives, CommandFinishes, ThreadFinishes,
         ShutdownFinishes, SessionFailureArrives, Tame, Announces;
    DeliverInv(s, valid, outcome);
    InvIdles(s);
    SafeFacts(s);
    var e, t, c := s.toGui[0], PopGui(s), s.gui;
    assert e in s.toGui;
    match e
    case NavigationRequested(generation, requestId, route) =>
      NavigationTame(c, generation, requestId, route, Refused, valid, valid);
      AbsorbSafe(t, NavigationArrives(c, generation, requestId, route, valid).0,
                 NavigationArrives(c, generation, requestId, route, valid).1);
    case RouteLoadResponse(generation, loadId, ok, route) =>
      var matches := generation == c.life.generation && ok && loadId in s.requested && s.requested[loadId] == route;
      var answered := if matches then s.answered + {loadId} else s.answered;
      ResponseFacts(s, answered);
      RouteResponseSafe(t.(answered := answered), generation, loadId, ok, route);
      AnnouncesFrom(t, t.(answered := answered), Deliver(t, e, valid, outcome));
    case CapabilityRequested(authority, generation, requestId) =>
      SameTame(c);
      AbsorbSafe(t, c, CapabilityArrives(c, authority, generation, requestId).1);
    case CommandFinished(generation, commandId, success, published, error) =>
      FinishTame(c, generation, commandId, success, published, error);
      AbsorbSafe(t, CommandFinishes(c, generation, commandId, success, published, error).0,
                 CommandFinishes(c, generation, commandId, success, published, error).1);
    case SessionFailed(generation, error) =>
      StopTame(c, generation, false, error);
      AbsorbSafe(t, SessionFailureArrives(c, generation, error), []);
    case PostedFailure(generation, error) =>
      StopTame(c, generation, false, error);
      AbsorbSafe(t, SessionFailureArrives(c, generation, error), []);
    case ShutdownFinished(generation) =>
      StopTame(c, generation, false, NoError);
      AbsorbSafe(t, ShutdownFinishes(c, generation), []);
    case ThreadFinished(generation) =>
      ThreadTame(c, generation, outcome);
      AbsorbSafe(t, ThreadFinishes(c, generation, outcome), []);
  }

  lemma ResponseFacts(s: System, answered: set<nat>)
    requires Inv(s) && s.toGui != [] && s.answered <= answered
    ensures var t := PopGui(s).(answered := answered);
      && Shape(t) && (s.gui.life.phase == Running ==> Loading(t.gui.routes, t.requested, answered))
  {
    hide Lively, Polling, Sending, SingleFlight, InTransit;
  }

  lemma AnnouncesFrom(s: System, s': System, t: System)
    requires s'.gui == s.gui && s'.io == s.io && Announces(s', t) && Modest(s', t)
    requires forall e <- s'.toGui :: e in s.toGui
    ensures Announces(s, t) && Modest(s, t)
  {}

  lemma ReturnSafe(s: System, navigation: Navigation, hasUse: bool, valid: bool, loadValid: bool)
    requires Inv(s) && Safe(s) && s.frames != []
    ensures var t := Return(PopFrame(s), s.frames[|s.frames| - 1], navigation, hasUse, valid, loadValid);
      Safe(t) && Announces(PopFrame(s), t) && Modest(PopFrame(s), t)
  {
    hide RunningInv, Shape, Absorb, NavigationReturns, AcknowledgementReturns, CapabilityObserved, SentReportReturns, Tame,
         Announces;
    ReturnInv(s, navigation, hasUse, valid, loadValid);
    InvIdles(s);
    SafeFacts(s);
    var f, t, c := s.frames[|s.frames| - 1], PopFrame(s), s.gui;
    match f
    case Navigating(generation, requestId, route) =>
      NavigationTame(c, generation, requestId, route, navigation, valid, loadValid);
      AbsorbSafe(t, NavigationReturns(c, generation, requestId, route, navigation, valid, loadValid), []);
    case Acknowledging(generation) =>
      ReturnTame(c, generation, false);
      AbsorbSafe(t, AcknowledgementReturns(c, generation), []);
    case ObservingCapability(authority, generation, requestId) =>
      ObservedTame(c, authority, generation, requestId, hasUse, valid);
      AbsorbSafe(t, CapabilityObserved(c, authority, generation, requestId, hasUse, valid), []);
    case ReportingSent(generation, resume) =>
      ReturnTame(c, generation, resume);
      AbsorbSafe(t, SentReportReturns(c, generation, resume), []);
  }

  // ---- The agent's side -------------------------------------------------------------------

  /** What the agent emits is clean, and it has a new pending command only by taking one from its queue. */
  predicate IoTame(io: Io, io': Io) {
    && (io.terminal ==> io'.terminal)
    && (forall e <- io'.emitted :: e in io.emitted || (Clean(e) && (e.ShutdownFinished? ==> io'.terminal)))
    && (io'.pendingCommand == 0 || io'.pendingCommand == io.pendingCommand)
  }

  lemma FailIoTame(io: Io, io': Io, error: Error)
    requires IoTame(io, io') && !Impossible(error)
    ensures IoTame(io, Fail(io', error))
  {}

  lemma ReceiveTame(io: Io, io': Io, received: Received)
    requires IoTame(io, io')
    ensures IoTame(io, Receive(io', received).0)
  {
    hide Fail, IoTame;
    FailIoTame(io, io', PeerShutdown);
    FailIoTame(io, io', ReceiveFailed);
    FailIoTame(io, io', UnexpectedMessage);
    EmitTame(io, io', received);
  }

  /** Messages that only produce an event or end a shutdown. */
  lemma EmitTame(io: Io, io': Io, received: Received)
    requires IoTame(io, io')
    ensures IoTame(io, FinishShutdown(io'))
    ensures received.NavigationRequest? || received.Response? || received.CapabilityRequest? ==>
              IoTame(io, Receive(io', received).0)
  {}

  lemma {:induction false} PollTurnTame(io: Io, io': Io, budget: nat)
    requires IoTame(io, io')
    ensures IoTame(io, PollTurn(io', budget))
    decreases budget
  {
    hide IoTame, Receive;
    if budget > 0 && io'.incoming != [] {
      var rest := io'.(incoming := io'.incoming[1..]);
      TakeTame(io, io');
      ReceiveTame(io, rest, io'.incoming[0]);
      var (next, more) := Receive(rest, io'.incoming[0]);
      if more { PollTurnTame(io, next, budget - 1); }
    }
  }

  lemma TakeTame(io: Io, io': Io)
    requires IoTame(io, io') && io'.incoming != []
    ensures IoTame(io, io'.(incoming := io'.incoming[1..]))
  {}

  lemma PollTame(io: Io)
    ensures IoTame(io, PollSession(io)) && IoTame(io, Start(io))
    ensures forall g: nat :: IoTame(io, ResumeIo(io, g))
  {
    hide PollTurn;
    PollTurnTame(io, io, MaxMessagesPerTurn);
    PollTurnTame(io, io.(started := true, pollTimer := true), MaxMessagesPerTurn);
    PollTurnTame(io, io.(awaitingGui := false, pollTimer := true), MaxMessagesPerTurn);
  }

  lemma CompletionTame(io: Io, generation: nat, commandId: nat, capabilitySend: bool, status: WriteStatus)
    ensures IoTame(io, CompleteSend(io, generation, commandId, capabilitySend, status))
  {
    hide Fail;
    var done := io.(pendingCommand := 0, sendDeadline := false);
    FailIoTame(io, Emit(done, CommandFinished(generation, commandId, false, false, SendFailed)), SendFailed);
  }

  lemma DeadlineTame(io: Io)
    ensures IoTame(io, SendDeadlineFires(io)) && IoTame(io, ShutdownDeadlineFires(io))
  {
    hide Fail;
    FailIoTame(io, io.(pendingCommand := 0, sendDeadline := false), SendTimeout);
    FailIoTame(io, io.(shutdownDeadline := false), ShutdownTimeout);
  }

  lemma ShutdownTame(io: Io, generation: nat, accepted: bool)
    ensures IoTame(io, BeginIoShutdown(io, generation, accepted))
    ensures IoTame(io, CompleteShutdownSend(io, generation, accepted))
    ensures IoTame(io, AbortIo(io, generation))
  {
    hide Fail;
    FailIoTame(io, io.(stopping := true, awaitingGui := false), ShutdownSendFailed);
    FailIoTame(io, io, ShutdownSendFailed);
  }

  lemma AbsorbIoSafe(s: System, io: Io)
    requires Safe(s) && s.io.Some? && s.io.value.emitted == [] && IoTame(s.io.value, io)
    ensures Safe(AbsorbIo(s, io))
  {}

  /** The second send the agent guards against cannot arrive: whatever is pending, nothing else is queued. */
  lemma SendSafe(s: System, accepted: bool)
    requires Shape(s) && Safe(s) && s.io.Some? && s.toIo != [] && s.toIo[0].SendMessage?
    ensures Safe(AbsorbIo(TakeSend(s), SendCommand(s.io.value, s.toIo[0].generation, s.toIo[0].command, accepted)))
  {
    hide Fail, Emit, Safe, ArmDeadline, AbsorbIo;
    var io, t, e := s.io.value, TakeSend(s), s.toIo[0];
    PopSafe(s);
    ReportTame(io, e.generation, e.command.id, StaleCommand);
    ReportTame(io, e.generation, e.command.id, CapabilityAuthorityMismatch);
    ReportTame(io, e.generation, e.command.id, SendFailed);
    TakenSafe(s);
    var next := SendCommand(io, e.generation, e.command, accepted);
    if next != ArmDeadline(io, e.command.id) { AbsorbIoSafe(t, next); }
  }

  lemma ReportTame(io: Io, generation: nat, commandId: nat, error: Error)
    requires !Impossible(error)
    ensures var reported := Emit(io, CommandFinished(generation, commandId, false, false, error));
      IoTame(io, reported) && IoTame(io, Fail(reported, error))
  {
    hide Fail;
    var reported := Emit(io, CommandFinished(generation, commandId, false, false, error));
    FailIoTame(io, reported, error);
  }

  lemma TakenSafe(s: System)
    requires Shape(s) && Safe(s) && s.io.Some? && s.toIo != [] && s.toIo[0].SendMessage?
    ensures Safe(TakeSend(s)) && Safe(AbsorbIo(TakeSend(s), ArmDeadline(s.io.value, s.toIo[0].command.id)))
  {}

  lemma NextIoSafe(s: System, a: Action)
    requires Inv(s) && Safe(s) && s.io.Some?
    ensures Safe(NextIo(s, s.io.value, a))
  {
    hide RunningInv, Shape, AbsorbIo, SendCommand, ResumeIo, PollSession, IoTame, Safe, CompleteSend, BeginIoShutdown, AbortIo,
         SendDeadlineFires, ShutdownDeadlineFires, CompleteShutdownSend;
    var io := s.io.value;
    QuietIo(s);
    PollTame(io);
    match a
    case DeliverToIo(accepted) =>
      if s.toIo != [] {
        PopSafe(s);
        match s.toIo[0]
        case SendMessage(generation, command) => SendSafe(s, accepted);
        case ResumePolling(generation) => AbsorbIoSafe(PopIo(s), ResumeIo(io, generation));
        case BeginShutdown(generation) =>
          ShutdownTame(io, generation, accepted);
          AbsorbIoSafe(PopIo(s), BeginIoShutdown(io, generation, accepted));
        case Abort(generation) =>
          ShutdownTame(io, generation, accepted);
          AbsorbIoSafe(PopIo(s), AbortIo(io, generation));
      }
    case FirePollTimer => AbsorbIoSafe(s, PollSession(io));
    case FireSendDeadline =>
      DeadlineTame(io);
      AbsorbIoSafe(s, SendDeadlineFires(io));
    case FireShutdownDeadline =>
      DeadlineTame(io);
      AbsorbIoSafe(s, ShutdownDeadlineFires(io));
    case CompletePipeWrite(commandId, capabilitySend, status) =>
      CompletionTame(io, io.generation, commandId, capabilitySend, status);
      AbsorbIoSafe(s, CompleteSend(io, io.generation, commandId, capabilitySend, status));
    case CompleteShutdownWrite(written) =>
      ShutdownTame(io, io.generation, written);
      AbsorbIoSafe(s, CompleteShutdownSend(io, io.generation, written));
    case _ =>
  }

  lemma QuietIo(s: System)
    requires Inv(s) && s.io.Some?
    ensures Shape(s) && s.io.value.emitted == []
  {}

  lemma PopSafe(s: System)
    requires Safe(s) && s.toIo != []
    ensures Safe(PopIo(s))
  {}

  predicate OnGuiThread(a: Action) {
    || a.CallRequestRouteLoad? || a.CallSendVisibility? || a.CallShutdown? || a.CallAttach? || a.CallUnbind?
    || a.DestroyRuntime? || a.CompleteDispatch? || a.DeliverToGui? || a.ReturnFromObserver?
  }

  lemma NextSafe(s: System, a: Action)
    requires Inv(s) && Safe(s)
    ensures Safe(Next(s, a)) && Announces(s, Next(s, a))
    ensures OnGuiThread(a) ==> Modest(s, Next(s, a))
  {
    hide RunningInv, Shape, Absorb, AbsorbIo, NextIo, Deliver, Return, Attach, Shutdown, RequestRouteLoad, Tame,
         SendVisibilityChanged, UnbindCapabilityRuntime, Start, IoTame, SubmitCapabilityCompletion;
    NextInv(s, a);
    InvIdles(s);
    SafeFacts(s);
    var c := s.gui;
    match a
    case CallRequestRouteLoad(route, valid) =>
      CallTame(c, route, valid, false, Authority(0, 0));
      AbsorbSafe(s, RequestRouteLoad(c, route, valid).0, []);
    case CallSendVisibility(visible) =>
      CallTame(c, "", false, visible, Authority(0, 0));
      AbsorbSafe(s, SendVisibilityChanged(c, visible).0, []);
    case CallShutdown(hasReason) =>
      StopTame(c, 0, hasReason, NoError);
      AbsorbSafe(s, Shutdown(c, hasReason).0, []);
    case CallAttach(authority, outcome) =>
      RunningHasIo(s);
      AttachTame(c, authority, outcome);
      AbsorbSafe(s, Attach(c, authority, outcome).0, []);
    case CallUnbind(bound) =>
      CallTame(c, "", false, false, bound);
      AbsorbSafe(s, UnbindCapabilityRuntime(c, bound), []);
    case CompleteDispatch(index, hasUse, result, valid) =>
      if index < |s.outstanding| {
        SubmitTame(c, s.outstanding[index], hasUse, result, valid);
        AbsorbSafe(Completed(s, index), SubmitCapabilityCompletion(c, s.outstanding[index], hasUse, result, valid).0, []);
        AnnouncesFrom(s, Completed(s, index), Next(s, a));
      }
    case DeliverToGui(valid, outcome) =>
      if s.toGui != [] {
        DeliverSafe(s, valid, outcome);
        AnnouncesFrom(s, PopGui(s), Next(s, a));
      }
    case ReturnFromObserver(navigation, hasUse, valid, loadValid) =>
      if s.frames != [] {
        ReturnSafe(s, navigation, hasUse, valid, loadValid);
        AnnouncesFrom(s, PopFrame(s), Next(s, a));
      }
    case StartIo =>
      if s.io.Some? {
        QuietIo(s);
        PollTame(s.io.value);
        AbsorbIoSafe(s, Start(s.io.value));
        IoLeavesGui(s, a);
      }
    case _ =>
      IoLeavesGui(s, a);
      if s.io.Some? && !a.PeerSends? && !a.DestroyRuntime? { NextIoSafe(s, a); }
  }

  lemma SubmitTame(c: Gui, done: Dispatch, hasUse: bool, result: BrokerResult, valid: bool)
    requires c == Flushed(c)
    ensures Tame(c, SubmitCapabilityCompletion(c, done, hasUse, result, valid).0)
  {
    hide QueueCapabilityResponse, Tame;
    SameTame(c);
    CapabilityTame(c, Some(done.authority), true, done.generation, done.requestId, result, true, valid);
  }

  lemma RunningHasIo(s: System)
    requires Inv(s)
    ensures !s.gui.life.hasIo ==> s.gui.life.phase != Running
  {}

  lemma IoLeavesGui(s: System, a: Action)
    requires !OnGuiThread(a) || a.DestroyRuntime?
    ensures Next(s, a).gui.out == s.gui.out && Announces(s, Next(s, a))
    ensures a.DestroyRuntime? ==> Modest(s, Next(s, a))
  {}

  // ---- Every reachable state ---------------------------------------------------------------

  lemma {:induction false} TraceSafe(states: seq<System>, actions: seq<Action>, n: nat)
    requires Trace(states, actions) && n <= |actions|
    ensures Inv(states[n]) && Safe(states[n])
  {
    hide Inv, Safe, Next;
    if n == 0 {
      InitialInv();
    } else {
      TraceSafe(states, actions, n - 1);
      assert states[n - 1 + 1] == Next(states[n - 1], actions[n - 1]);
      NextInv(states[n - 1], actions[n - 1]);
      NextSafe(states[n - 1], actions[n - 1]);
    }
  }

  lemma ReachableSafe(s: System)
    requires Reachable(s)
    ensures Inv(s) && Safe(s)
  {
    var states, actions :| Trace(states, actions) && states[|actions|] == s;
    TraceSafe(states, actions, |actions|);
  }

  /**
   No lost wake-up, in every interleaving: while the session runs and the agent's
   pipe is open, the agent waits for the GUI exactly when there is exactly one
   resume token, and otherwise there is none; a started agent that does not wait polls.
   */
  lemma NoLostWakeUp(s: System)
    requires Reachable(s)
    ensures
      s.gui.life.phase == Running && s.io.Some? && !s.io.value.terminal ==>
        var io, tokens := s.io.value, ResumeTokens(s.gui.life.generation, s.gui.queue, s.toIo, s.toGui, s.frames);
        && (io.awaitingGui <==> tokens == 1)
        && (!io.awaitingGui <==> tokens == 0)
        && (io.started ==> (io.pollTimer <==> !io.awaitingGui))
  {
    ReachableSafe(s);
  }

  /**
   One command at a time, in order: at most 64 commands are queued or in flight, the
   agent receives them in the order of their consecutive ids, and the command in
   flight is in exactly one place.
   */
  lemma SendsAreSingleAndOrdered(s: System)
    requires Reachable(s)
    ensures
      s.gui.life.phase == Running ==>
        var q := s.gui.queue;
        && s.io.Some? && QueueLength(q) <= MaxQueuedCommands
        && (forall i :: 0 <= i < |s.delivered| ==> s.delivered[i] == s.base + 1 + i)
        && (q.active.Some? ==> forall i :: 0 <= i < |q.outbound| ==> q.outbound[i].id == q.active.value.id + 1 + i)
        && (q.active.Some? ==> s.base + |s.delivered| <= q.active.value.id <= s.base + |s.delivered| + 1)
        && (!s.io.value.terminal ==>
              SendTokens(s.gui.life.generation, s.io.value.pendingCommand, s.toIo, s.toGui) == if q.active.Some? then 1 else 0)
  {
    ReachableSafe(s);
  }

  /** At most one command or dispatch can still complete the request that holds the capability slot. */
  lemma CapabilitySingleFlight(s: System)
    requires Reachable(s)
    ensures
      s.gui.life.phase == Running ==>
        var g, q, t := s.gui.life.generation, s.gui.queue, s.gui.slot;
        && s.io.Some?
        && Commands(q, Completing) + Count(s.outstanding, DispatchOf(g)) <= 1
        && (t.activeRequest == "" ==> Commands(q, Completing) == 0)
        && (forall c <- q.outbound :: Completing(c) ==> c.capabilityRequestId == t.activeRequest && Authorised(s.io.value.authority, c))
        && (q.active.Some? && Completing(q.active.value) ==>
              q.active.value.capabilityRequestId == t.activeRequest && Authorised(s.io.value.authority, q.active.value))
        && (forall d <- s.outstanding :: d.generation == g ==>
                                           d.requestId == t.activeRequest && Some(d.authority) == s.io.value.authority)
  {
    ReachableSafe(s);
  }

  /**
   On no run, whatever the interleaving of timers, late pipe reports, observers and
   re-attachment, does the agent meet a second send or the controller a burst of
   route loads that ends inconsistently.
   */
  lemma ImpossibleFailures(s: System)
    requires Reachable(s)
    ensures
      && s.gui.life.lastError != ConcurrentSend && s.gui.life.lastError != RouteLoadCompletionMismatch
      && forall e <- s.toGui :: e.SessionFailed? ==> e.error != ConcurrentSend
  {
    ReachableSafe(s);
  }

  /**
   When a step of a run announces a finished route load, no load is pending, every load
   requested in the session has been answered, and the newest is the one announced.
   */
  lemma AcknowledgementIsTruthful(states: seq<System>, actions: seq<Action>, i: nat)
    requires Trace(states, actions) && i < |actions|
    ensures Announces(states[i], states[i + 1])
  {
    TraceSafe(states, actions, i);
    assert states[i + 1] == Next(states[i], actions[i]);
    NextSafe(states[i], actions[i]);
  }
}
