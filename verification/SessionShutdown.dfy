/**
 Two properties of single steps: how the capability slot is freed, and how a
 shutdown can be held up by a worker message that arrives while the agent is stopping.
 */
module SessionShutdown {
  import opened Common
  import opened SessionTypes
  import opened SessionController
  import opened SessionIo
  import opened SessionSystem
  import opened SessionInvariant
  import opened SessionIoInvariant
  import opened SessionTheorems

  // ---- The capability slot ------------------------------------------------------------

  /** An occupied slot keeps its request for as long as the session runs. */
  predicate KeepsSlot(c: Gui, d: Gui) {
    c.slot.activeRequest != "" && d.life.phase == Running && d.life.generation == c.life.generation ==>
      d.slot.activeRequest == c.slot.activeRequest
  }

  lemma CallsKeepSlot(c: Gui, route: string, valid: bool, flag: bool, authority: Option<Authority>, outcome: StartOutcome)
    requires c.life.phase == Running ==> c.life.hasIo
    ensures KeepsSlot(c, RequestRouteLoad(c, route, valid).0) && KeepsSlot(c, SendVisibilityChanged(c, flag).0)
    ensures KeepsSlot(c, Shutdown(c, flag).0) && KeepsSlot(c, Attach(c, authority, outcome).0)
    ensures authority.Some? ==> KeepsSlot(c, UnbindCapabilityRuntime(c, authority.value))
  {}

  lemma NavigationKeepsSlot(c: Gui, generation: nat, requestId: string, route: string, navigation: Navigation, valid: bool,
                            loadValid: bool)
    ensures KeepsSlot(c, NavigationArrives(c, generation, requestId, route, valid).0)
    ensures KeepsSlot(c, NavigationReturns(c, generation, requestId, route, navigation, valid, loadValid))
  {}

  lemma RoutesKeepSlot(c: Gui, generation: nat, route: string, loadId: nat, ok: bool)
    ensures KeepsSlot(c, RouteResponseArrives(c, generation, loadId, ok, route).0)
    ensures KeepsSlot(c, AcknowledgementReturns(c, generation)) && KeepsSlot(c, SentReportReturns(c, generation, ok))
  {}

  lemma CapabilityKeepsSlot(c: Gui, authority: Option<Authority>, generation: nat, requestId: string, flag: bool, valid: bool,
                            done: Dispatch, result: BrokerResult)
    ensures KeepsSlot(c, CapabilityObserved(c, authority, generation, requestId, flag, valid))
    ensures KeepsSlot(c, SubmitCapabilityCompletion(c, done, flag, result, valid).0)
  {}

  lemma EndingKeepsSlot(c: Gui, generation: nat, error: Error, outcome: StartOutcome)
    ensures KeepsSlot(c, SessionFailureArrives(c, generation, error)) && KeepsSlot(c, ShutdownFinishes(c, generation))
    ensures c.life.cleanupFinal != Running ==> KeepsSlot(c, ThreadFinishes(c, generation, outcome))
  {}

  /** The first event queued for the GUI says that the command answering the slot's request has been dealt with. */
  predicate AnswerFinishes(s: System) {
    && s.toGui != [] && s.toGui[0].CommandFinished? && s.toGui[0].success
    && s.toGui[0].generation == s.gui.life.generation
    && s.gui.queue.active.Some? && s.toGui[0].commandId == s.gui.queue.active.value.id
    && s.gui.queue.active.value.capabilityRequestId == s.gui.slot.activeRequest
  }

  lemma DeliveryKeepsSlot(s: System, valid: bool, outcome: StartOutcome)
    requires Inv(s) && s.toGui != []
    ensures var t := Deliver(PopGui(s), s.toGui[0], valid, outcome);
      KeepsSlot(s.gui, t.gui) || AnswerFinishes(s)
  {
    hide RunningInv, KeepsSlot, NavigationArrives, RouteResponseArrives, ThreadFinishes, ShutdownFinishes,
         SessionFailureArrives, FailClosed, CommandFinishes;
    var c := s.gui;
    match s.toGui[0]
    case NavigationRequested(generation, requestId, route) =>
      NavigationKeepsSlot(c, generation, requestId, route, Refused, valid, valid);
      AbsorbKeepsSlot(PopGui(s), NavigationArrives(c, generation, requestId, route, valid).0);
    case RouteLoadResponse(generation, loadId, ok, route) =>
      RoutesKeepSlot(c, generation, route, loadId, ok);
      var matches := generation == c.life.generation && ok && loadId in s.requested && s.requested[loadId] == route;
      AbsorbKeepsSlot(PopGui(s).(answered := if matches then s.answered + {loadId} else s.answered),
                      RouteResponseArrives(c, generation, loadId, ok, route).0);
    case CapabilityRequested(authority, generation, requestId) => AbsorbKeepsSlot(PopGui(s), c);
    case CommandFinished(generation, commandId, success, published, error) =>
      var d := CommandFinishes(c, generation, commandId, success, published, error).0;
      FinishKeepsSlot(s, d);
      AbsorbKeepsSlot(PopGui(s), d);
    case SessionFailed(generation, error) =>
      EndingKeepsSlot(c, generation, error, outcome);
      AbsorbKeepsSlot(PopGui(s), SessionFailureArrives(c, generation, error));
    case PostedFailure(generation, error) =>
      EndingKeepsSlot(c, generation, error, outcome);
      AbsorbKeepsSlot(PopGui(s), SessionFailureArrives(c, generation, error));
    case ShutdownFinished(generation) =>
      EndingKeepsSlot(c, generation, NoError, outcome);
      AbsorbKeepsSlot(PopGui(s), ShutdownFinishes(c, generation));
    case ThreadFinished(generation) =>
      EndingKeepsSlot(c, generation, NoError, outcome);
      AbsorbKeepsSlot(PopGui(s), ThreadFinishes(c, generation, outcome));
  }

  lemma FinishKeepsSlot(s: System, d: Gui)
    requires s.toGui != [] && s.toGui[0].CommandFinished?
    requires var e := s.toGui[0];
      d == CommandFinishes(s.gui, e.generation, e.commandId, e.success, e.published, e.error).0
    ensures KeepsSlot(s.gui, d) || AnswerFinishes(s)
  {}

  lemma AbsorbKeepsSlot(s: System, d: Gui)
    ensures forall frames :: KeepsSlot(s.gui, d) ==> KeepsSlot(s.gui, Absorb(s, d, frames).gui)
    ensures KeepsSlot(s.gui, s.gui)
  {}

  lemma ReturnKeepsSlot(s: System, navigation: Navigation, hasUse: bool, valid: bool, loadValid: bool)
    requires s.frames != []
    ensures KeepsSlot(s.gui, Return(PopFrame(s), s.frames[|s.frames| - 1], navigation, hasUse, valid, loadValid).gui)
  {
    hide KeepsSlot, NavigationReturns, AcknowledgementReturns, CapabilityObserved, SentReportReturns;
    var c := s.gui;
    match s.frames[|s.frames| - 1]
    case Navigating(generation, requestId, route) =>
      NavigationKeepsSlot(c, generation, requestId, route, navigation, valid, loadValid);
      AbsorbKeepsSlot(PopFrame(s), NavigationReturns(c, generation, requestId, route, navigation, valid, loadValid));
    case Acknowledging(generation) =>
      RoutesKeepSlot(c, generation, "", 0, false);
      AbsorbKeepsSlot(PopFrame(s), AcknowledgementReturns(c, generation));
    case ObservingCapability(authority, generation, requestId) =>
      CapabilityKeepsSlot(c, authority, generation, requestId, hasUse, valid, Dispatch(0, "", Authority(0, 0)),
                          BrokerResult(false, Denied));
      AbsorbKeepsSlot(PopFrame(s), CapabilityObserved(c, authority, generation, requestId, hasUse, valid));
    case ReportingSent(generation, resume) =>
      RoutesKeepSlot(c, generation, "", 0, resume);
      AbsorbKeepsSlot(PopFrame(s), SentReportReturns(c, generation, resume));
  }

  /**
   While a session runs, an occupied slot is given up in one way only: the command
   that answers its request, written or cancelled at the pipe, is reported finished.
   */
  lemma SlotIsFreedByItsAnswer(s: System, a: Action)
    requires Inv(s)
    requires s.gui.life.phase == Running && s.gui.slot.activeRequest != ""
    requires var t := Next(s, a); t.gui.life.phase == Running && t.gui.life.generation == s.gui.life.generation
    requires Next(s, a).gui.slot.activeRequest != s.gui.slot.activeRequest
    ensures a.DeliverToGui? && AnswerFinishes(s)
  {
    hide RunningInv, Deliver, Return, RequestRouteLoad, SendVisibilityChanged, Shutdown, Attach, UnbindCapabilityRuntime,
         SubmitCapabilityCompletion, AnswerFinishes;
    var c := s.gui;
    match a
    case CallRequestRouteLoad(route, valid) => CallsKeepSlot(c, route, valid, false, None, Started);
    case CallSendVisibility(visible) => CallsKeepSlot(c, "", false, visible, None, Started);
    case CallShutdown(hasReason) => CallsKeepSlot(c, "", false, hasReason, None, Started);
    case CallAttach(authority, outcome) => CallsKeepSlot(c, "", false, false, authority, outcome);
    case CallUnbind(bound) => CallsKeepSlot(c, "", false, false, Some(bound), Started);
    case CompleteDispatch(index, hasUse, result, valid) =>
      if index < |s.outstanding| {
        CapabilityKeepsSlot(c, None, 0, "", hasUse, valid, s.outstanding[index], result);
      }
    case DeliverToGui(valid, outcome) => if s.toGui != [] { DeliveryKeepsSlot(s, valid, outcome); }
    case ReturnFromObserver(navigation, hasUse, valid, loadValid) =>
      if s.frames != [] { ReturnKeepsSlot(s, navigation, hasUse, valid, loadValid); }
    case _ =>
  }

  lemma FailedIsOver(c: Gui, error: Error)
    ensures FailClosed(c, error).life.phase != Running
  {}

  /**
   A request that finds the slot taken is answered with a refusal that completes
   nothing and reaches no runtime, or the session fails.
   */
  lemma CompetingRequestIsRefused(s: System, authority: Option<Authority>, requestId: string, use: bool, valid: bool)
    requires Inv(s) && s.gui.life.phase == Running && s.gui.slot.activeRequest != ""
    ensures var d := CapabilityObserved(s.gui, authority, s.gui.life.generation, requestId, use, valid);
      d.life.phase == Running ==>
        && d.out.dispatched == [] && d.slot == s.gui.slot && requestId != s.gui.slot.activeRequest
        && Commands(d.queue, Completing) == Commands(s.gui.queue, Completing)
        && d.queue.nextCommand == s.gui.queue.nextCommand + 1
        && var last := if d.queue.outbound != [] then d.queue.outbound[|d.queue.outbound| - 1] else d.queue.active.value;
           last.id == d.queue.nextCommand && last.message == CapabilityReply(requestId, BrokerResult(false, Busy))
  {
    hide RunningInv, FailClosed;
    FailedIsOver(s.gui, CapabilityAuthorityMismatch);
    FailedIsOver(s.gui, ResponseQueueFailed);
    FailedIsOver(QueueCapabilityResponse(s.gui, authority, true, s.gui.life.generation, requestId, BrokerResult(false, Busy),
                                         false, valid).0, ResponseQueueFailed);
    var reply := Command(s.gui.queue.nextCommand + 1, CapabilityReply(requestId, BrokerResult(false, Busy)), "", false, false, "",
                         authority, true);
    CountSnoc(s.gui.queue.outbound, reply, Completing);
  }

  // ---- A shutdown that stalls -------------------------------------------------------------

  /** The messages that stop a turn because the GUI has to answer them. */
  predicate NeedsAnswer(r: Received) {
    r.NavigationRequest? || r.Response?
  }

  /** The messages a turn reads past. */
  predicate ReadPast(r: Received) {
    r.CapabilityRequest? || r.Heartbeat? || r.PageMetadata? || r.Informational?
  }

  /** The first message of `incoming` that a turn does not read past, if it comes within `budget`, needs an answer. */
  predicate AnswerComesFirst(incoming: seq<Received>, budget: nat) {
    exists k :: 0 <= k < |incoming| && k < budget && NeedsAnswer(incoming[k])
                && forall j :: 0 <= j < k ==> ReadPast(incoming[j])
  }

  /** One turn of a stopping agent: it ends up waiting exactly when a message that needs an answer comes first. */
  lemma {:induction false} TurnStalls(io: Io, budget: nat)
    requires io.stopping && !io.terminal && !io.awaitingGui
    ensures var io' := PollTurn(io, budget);
      && io'.generation == io.generation
      && (io'.awaitingGui <==> AnswerComesFirst(io.incoming, budget))
      && (io'.awaitingGui ==> io'.stopping && !io'.terminal && forall e <- io'.emitted :: e in io.emitted || !e.ShutdownFinished?)
    decreases budget
  {
    if budget > 0 && io.incoming != [] {
      var rest := io.(incoming := io.incoming[1..]);
      var (next, more) := Receive(rest, io.incoming[0]);
      ReceivedStalls(rest, io.incoming[0]);
      hide Receive;
      if more {
        TurnStalls(next, budget - 1);
        ShiftAnswer(io.incoming, budget);
      } else {
        assert next.awaitingGui <==> NeedsAnswer(io.incoming[0]);
      }
    }
  }

  lemma ReceivedStalls(io: Io, received: Received)
    requires io.stopping && !io.terminal && !io.awaitingGui
    ensures var (next, more) := Receive(io, received);
      && next.generation == io.generation && next.incoming == io.incoming
      && (more <==> ReadPast(received)) && (next.awaitingGui <==> NeedsAnswer(received))
      && (more || next.awaitingGui ==>
            next.stopping && !next.terminal && forall e <- next.emitted :: e in io.emitted || !e.ShutdownFinished?)
  {}

  lemma ShiftAnswer(incoming: seq<Received>, budget: nat)
    requires incoming != [] && budget > 0 && ReadPast(incoming[0])
    ensures AnswerComesFirst(incoming, budget) <==> AnswerComesFirst(incoming[1..], budget - 1)
  {
    if AnswerComesFirst(incoming, budget) {
      var k :| 0 <= k < |incoming| && k < budget && NeedsAnswer(incoming[k])
               && forall j :: 0 <= j < k ==> ReadPast(incoming[j]);
      assert NeedsAnswer(incoming[1..][k - 1]);
    }
    if AnswerComesFirst(incoming[1..], budget - 1) {
      var k :| 0 <= k < |incoming[1..]| && k < budget - 1 && NeedsAnswer(incoming[1..][k])
               && forall j :: 0 <= j < k ==> ReadPast(incoming[1..][j]);
      assert NeedsAnswer(incoming[k + 1]);
      forall j | 0 <= j < k + 1 ensures ReadPast(incoming[j]) {
        if j > 0 { assert incoming[j] == incoming[1..][j - 1]; }
      }
    }
  }

  /** The agent of session `g` waits, although it is stopping, for an answer the GUI will not give. */
  predicate Stalled(s: System, g: nat) {
    && s.gui.life.generation == g
    && (s.io.Some? ==> s.io.value.generation == g && s.io.value.emitted == []
                       && (s.io.value.terminal || (s.io.value.stopping && s.io.value.awaitingGui)))
    && forall e <- s.toGui :: !(e.ShutdownFinished? && e.generation == g)
  }

  /** What a stalled agent may turn into. */
  predicate StaysStalled(io: Io, io': Io) {
    && io'.generation == io.generation
    && (io'.terminal || (io'.stopping && io'.awaitingGui))
    && forall e <- io'.emitted :: e in io.emitted || !e.ShutdownFinished?
  }

  lemma PollStaysStalled(io: Io, g: nat)
    requires io.terminal || (io.stopping && io.awaitingGui)
    ensures StaysStalled(io, PollSession(io)) && StaysStalled(io, ResumeIo(io, g)) && StaysStalled(io, Start(io))
  {
    hide PollTurn;
  }

  lemma FailStaysStalled(io: Io, io': Io, error: Error)
    requires StaysStalled(io, io')
    ensures StaysStalled(io, Fail(io', error))
  {}

  lemma SendStaysStalled(io: Io, g: nat, command: Command, commandId: nat, flag: bool, status: WriteStatus)
    requires io.terminal || (io.stopping && io.awaitingGui)
    ensures StaysStalled(io, SendCommand(io, g, command, flag))
    ensures StaysStalled(io, CompleteSend(io, g, commandId, flag, status))
  {
    hide Fail;
    FailStaysStalled(io, Emit(io.(pendingCommand := 0, sendDeadline := false),
                              CommandFinished(g, commandId, false, false, SendFailed)), SendFailed);
  }

  lemma StopStaysStalled(io: Io, g: nat, flag: bool)
    requires io.terminal || (io.stopping && io.awaitingGui)
    ensures StaysStalled(io, BeginIoShutdown(io, g, flag)) && StaysStalled(io, CompleteShutdownSend(io, g, flag))
    ensures StaysStalled(io, SendDeadlineFires(io)) && StaysStalled(io, ShutdownDeadlineFires(io))
    ensures StaysStalled(io, AbortIo(io, g))
  {
    hide Fail;
    FailStaysStalled(io, io, ShutdownSendFailed);
    FailStaysStalled(io, io.(pendingCommand := 0, sendDeadline := false), SendTimeout);
    FailStaysStalled(io, io.(shutdownDeadline := false), ShutdownTimeout);
  }

  lemma AbsorbIoStalls(s: System, io: Io, g: nat)
    requires Stalled(s, g) && s.io.Some? && StaysStalled(s.io.value, io)
    ensures Stalled(AbsorbIo(s, io), g)
  {}

  /**
   When the poll timer of a stopping agent fires, in any reachable state, its session
   stalls exactly when a navigation request or a response comes first within the turn.
   */
  lemma StallsExactlyWhen(s: System)
    requires Reachable(s) && s.io.Some? && s.io.value.started && s.io.value.pollTimer
    requires s.io.value.stopping && !s.io.value.terminal && !s.io.value.awaitingGui
    ensures var t := Next(s, FirePollTimer);
      Stalled(t, s.gui.life.generation) && !t.io.value.terminal
      <==> AnswerComesFirst(s.io.value.incoming, MaxMessagesPerTurn)
  {
    ReachableSafe(s);
    QuietIo(s);
    SafeMeansFinished(s);
    TurnStalls(s.io.value, MaxMessagesPerTurn);
    FiresPoll(s);
    hide Inv, Safe, Next, Shape, PollTurn, AnswerComesFirst, Reachable;
    TurnAbsorbed(s, PollTurn(s.io.value, MaxMessagesPerTurn));
  }

  lemma FiresPoll(s: System)
    requires s.io.Some? && s.io.value.started && s.io.value.pollTimer && !s.io.value.terminal && !s.io.value.awaitingGui
    ensures Next(s, FirePollTimer) == AbsorbIo(s, PollTurn(s.io.value, MaxMessagesPerTurn))
  {
    hide PollTurn, AbsorbIo;
  }

  lemma SafeMeansFinished(s: System)
    requires Inv(s) && Safe(s)
    ensures FinishedIsClosed(s) && (s.io.Some? ==> s.io.value.generation == s.gui.life.generation)
  {}

  lemma TurnAbsorbed(s: System, io: Io)
    requires s.io.Some? && s.io.value.emitted == [] && !s.io.value.terminal && io.generation == s.gui.life.generation
    requires FinishedIsClosed(s)
    requires io.awaitingGui ==> io.stopping && !io.terminal && forall e <- io.emitted :: !e.ShutdownFinished?
    ensures Stalled(AbsorbIo(s, io), s.gui.life.generation) && !io.terminal <==> io.awaitingGui
    ensures AbsorbIo(s, io).io == Some(io.(emitted := []))
  {}

  lemma ModestStalls(s: System, t: System, g: nat)
    requires Stalled(s, g) && Modest(s, t) && Shape(t) && t.gui.life.generation == g
    ensures Stalled(t, g)
  {}

  lemma StalledNext(s: System, a: Action, g: nat)
    requires Inv(s) && Safe(s) && Stalled(s, g)
    ensures Next(s, a).gui.life.generation == g ==> Stalled(Next(s, a), g)
    ensures Next(s, a).gui.life.generation >= g
  {
    hide RunningInv, Safe;
    NextSafe(s, a);
    NextInv(s, a);
    if OnGuiThread(a) {
      if Next(s, a).gui.life.generation == g {
        hide Next;
        ModestStalls(s, Next(s, a), g);
      }
    } else if s.io.Some? {
      hide AbsorbIo, StaysStalled, NextIo, Start;
      AgentStalls(s, a, g);
      PollStaysStalled(s.io.value, g);
      AbsorbIoStalls(s, Start(s.io.value), g);
    }
  }

  lemma AgentStalls(s: System, a: Action, g: nat)
    requires Stalled(s, g) && s.io.Some?
    ensures Stalled(NextIo(s, s.io.value, a), g)
  {
    hide AbsorbIo, StaysStalled, PollSession, SendCommand, ResumeIo, BeginIoShutdown, AbortIo, CompleteSend, SendDeadlineFires,
         ShutdownDeadlineFires, CompleteShutdownSend;
    var io := s.io.value;
    match a
    case DeliverToIo(accepted) =>
      if s.toIo != [] {
        var t := s.(toIo := s.toIo[1..]);
        match s.toIo[0]
        case SendMessage(generation, command) =>
          SendStaysStalled(io, generation, command, 0, accepted, Written);
          AbsorbIoStalls(t.(delivered := t.delivered + [command.id]), SendCommand(io, generation, command, accepted), g);
        case ResumePolling(generation) =>
          PollStaysStalled(io, generation);
          AbsorbIoStalls(t, ResumeIo(io, generation), g);
        case BeginShutdown(generation) =>
          StopStaysStalled(io, generation, accepted);
          AbsorbIoStalls(t, BeginIoShutdown(io, generation, accepted), g);
        case Abort(generation) =>
          StopStaysStalled(io, generation, accepted);
          AbsorbIoStalls(t, AbortIo(io, generation), g);
      }
    case FirePollTimer =>
      PollStaysStalled(io, g);
      AbsorbIoStalls(s, PollSession(io), g);
    case FireSendDeadline =>
      StopStaysStalled(io, g, false);
      AbsorbIoStalls(s, SendDeadlineFires(io), g);
    case FireShutdownDeadline =>
      StopStaysStalled(io, g, false);
      AbsorbIoStalls(s, ShutdownDeadlineFires(io), g);
    case CompletePipeWrite(commandId, capabilitySend, status) =>
      SendStaysStalled(io, io.generation, PlainCommand(VisibilityChanged(false), false), commandId, capabilitySend, status);
      AbsorbIoStalls(s, CompleteSend(io, io.generation, commandId, capabilitySend, status), g);
    case CompleteShutdownWrite(written) =>
      StopStaysStalled(io, io.generation, written);
      AbsorbIoStalls(s, CompleteShutdownSend(io, io.generation, written), g);
    case _ =>
  }

  lemma {:induction false} GenerationsGrow(s: System, actions: seq<Action>)
    requires Inv(s) && Safe(s)
    ensures Run(s, actions).gui.life.generation >= s.gui.life.generation
    decreases actions
  {
    hide RunningInv, Safe, Next;
    if actions != [] {
      NextSafe(s, actions[0]);
      NextInv(s, actions[0]);
      NextKeepsGeneration(s, actions[0]);
      GenerationsGrow(Next(s, actions[0]), actions[1..]);
    }
  }

  lemma NextKeepsGeneration(s: System, a: Action)
    ensures !OnGuiThread(a) ==> Next(s, a).gui == s.gui
  {}

  /**
   Once stalled, the graceful shutdown of a session never completes: until another
   session replaces it, whatever happens, no ShutdownFinished is ever queued.
   */
  lemma {:induction false} StalledShutdownNeverFinishes(s: System, g: nat, actions: seq<Action>)
    requires Inv(s) && Safe(s) && Stalled(s, g)
    ensures var t := Run(s, actions); t.gui.life.generation == g ==> Stalled(t, g) && ShutdownFinished(g) !in t.toGui
    decreases actions
  {
    hide RunningInv, Safe, Next;
    if actions != [] {
      var t := Next(s, actions[0]);
      NextSafe(s, actions[0]);
      NextInv(s, actions[0]);
      StalledNext(s, actions[0], g);
      GenerationsGrow(t, actions[1..]);
      if t.gui.life.generation == g { StalledShutdownNeverFinishes(t, g, actions[1..]); }
    }
  }

  const ToStall: seq<Action> :=
    [CallAttach(None, Started), StartIo, CallShutdown(true), DeliverToIo(true),
     PeerSends(NavigationRequest("id", "/")), FirePollTimer]

  /** Such a state is reached by a navigation request that the agent reads after it was told to stop. */
  lemma ShutdownCanStall()
    ensures Stalled(Run(InitialSystem, ToStall), 1)
  {
    var s1 := Next(InitialSystem, CallAttach(None, Started));
    var s2 := Next(s1, StartIo);
    var s3 := Next(s2, CallShutdown(true));
    assert s3.toIo == [BeginShutdown(1)] && s3.toGui == [] && s3.gui.life.generation == 1;
    assert s3.io == Some(NewIo(1, None).(started := true, pollTimer := true));
    var s6 := ReadAfterStop(s3);
    assert Stalled(s6, 1) by { TailStalls(s3); }
    hide Next, Stalled;
    IterateThrough(Next, [InitialSystem, s1, s2, s3, Next(s3, DeliverToIo(true)),
                          Next(Next(s3, DeliverToIo(true)), PeerSends(NavigationRequest("id", "/"))), s6], ToStall);
  }

  function ReadAfterStop(s: System): System {
    Next(Next(Next(s, DeliverToIo(true)), PeerSends(NavigationRequest("id", "/"))), FirePollTimer)
  }

  /** One poll by a stopping agent that finds a navigation request. */
  lemma OnePollStalls(s: System)
    requires s.io.Some? && s.toGui == [] && s.gui.life.generation == 1
    requires s.io == Some(NewIo(1, None).(started := true, pollTimer := true, stopping := true, shutdownDeadline := true,
                                          incoming := [NavigationRequest("id", "/")]))
    ensures Stalled(Next(s, FirePollTimer), 1)
  {}

  lemma TailStalls(s: System)
    requires s.toIo == [BeginShutdown(1)] && s.toGui == [] && s.gui.life.generation == 1
    requires s.io == Some(NewIo(1, None).(started := true, pollTimer := true))
    ensures Stalled(ReadAfterStop(s), 1)
  {
    var s1 := Next(s, DeliverToIo(true));
    var io := NewIo(1, None).(started := true, pollTimer := true, stopping := true, shutdownDeadline := true);
    assert s1.io == Some(io) && s1.toGui == [] && s1.gui.life.generation == 1;
    var s2 := Next(s1, PeerSends(NavigationRequest("id", "/")));
    assert [] + [NavigationRequest("id", "/")] == [NavigationRequest("id", "/")];
    assert s2.io == Some(io.(incoming := [NavigationRequest("id", "/")])) && s2.toGui == [] && s2.gui.life.generation == 1;
    OnePollStalls(s2);
  }
}
