/**
 The controller and its IO agent as the objects they are: fields updated in place by
 handlers.  Each method is proved to have exactly the effect that the functions of
 SessionController and SessionIo give, so that what is proved of the composed system
 is a statement about these methods.
 */
module WorkerSession {
  import opened Common
  import opened SessionTypes
  import Agent = SessionIo
  import Spec = SessionController

  class HostWorkerSessionIo {
    const generation: nat
    const authority: Option<Authority>
    var started: bool
    var pollTimer: bool
    var sendDeadline: bool
    var shutdownDeadline: bool
    var pendingCommand: nat
    var awaitingGui: bool
    var stopping: bool
    var terminal: bool
    var incoming: seq<Received>
    var emitted: seq<GuiEvent>

    function View(): Agent.Io
      reads this
    {
      Agent.Io(generation, authority, started, pollTimer, sendDeadline, shutdownDeadline, pendingCommand, awaitingGui,
               stopping, terminal, incoming, emitted)
    }

    constructor (generation: nat, authority: Option<Authority>)
      ensures View() == Agent.NewIo(generation, authority)
    {
      this.generation, this.authority := generation, authority;
      started, pollTimer, sendDeadline, shutdownDeadline := false, false, false, false;
      pendingCommand, awaitingGui, stopping, terminal := 0, false, false, false;
      incoming, emitted := [], [];
    }

    method Close()
      modifies this
      ensures View() == Agent.Close(old(View()))
    {
      terminal := true;
      pollTimer := false;
      sendDeadline := false;
      shutdownDeadline := false;
      pendingCommand := 0;
    }

    method Fail(error: Error)
      modifies this
      ensures View() == Agent.Fail(old(View()), error)
    {
      if terminal { return; }
      Close();
      emitted := emitted + [SessionFailed(generation, if error == NoError then SessionFailure else error)];
    }

    method FinishShutdown()
      modifies this
      ensures View() == Agent.FinishShutdown(old(View()))
    {
      if terminal || !stopping { return; }
      Close();
      emitted := emitted + [ShutdownFinished(generation)];
    }

    /** At most eight messages are read; the first that the GUI must answer stops the polling. */
    method PollSession()
      modifies this
      ensures View() == Agent.PollSession(old(View()))
    {
      hide Agent.Fail, Agent.FinishShutdown;
      if terminal || awaitingGui { return; }
      var index := 0;
      while index < MaxMessagesPerTurn
        invariant index <= MaxMessagesPerTurn
        invariant Agent.PollTurn(View(), MaxMessagesPerTurn - index) == Agent.PollTurn(old(View()), MaxMessagesPerTurn)
      {
        if incoming == [] { return; }
        var received := incoming[0];
        incoming := incoming[1..];
        match received {
          case NavigationRequest(requestId, route) =>
            awaitingGui := true;
            pollTimer := false;
            emitted := emitted + [NavigationRequested(generation, requestId, route)];
            return;
          case Response(loadId, ok, route) =>
            awaitingGui := true;
            pollTimer := false;
            emitted := emitted + [RouteLoadResponse(generation, loadId, ok, route)];
            return;
          case CapabilityRequest(requestId) =>
            emitted := emitted + [CapabilityRequested(authority, generation, requestId)];
          case PeerShutdownMessage =>
            if !stopping { Fail(PeerShutdown); return; }
            FinishShutdown();
            return;
          case Unexpected =>
            Fail(UnexpectedMessage);
            return;
          case PeerClosed =>
            if stopping { FinishShutdown(); return; }
            Fail(ReceiveFailed);
            return;
          case Broken =>
            Fail(ReceiveFailed);
            return;
          case _ =>
        }
        index := index + 1;
      }
    }

    method Start()
      modifies this
      ensures View() == Agent.Start(old(View()))
    {
      started := true;
      if terminal { return; }
      pollTimer := true;
      PollSession();
    }

    method ResumePolling(generation: nat)
      modifies this
      ensures View() == Agent.ResumeIo(old(View()), generation)
    {
      if generation != this.generation || terminal || stopping { return; }
      awaitingGui := false;
      if !pollTimer { pollTimer := true; }
      PollSession();
    }

    method ArmCommandDeadline(commandId: nat)
      modifies this
      ensures View() == Agent.ArmDeadline(old(View()), commandId)
    {
      if terminal { return; }
      if pendingCommand != 0 {
        Fail(ConcurrentSend);
        return;
      }
      pendingCommand := commandId;
      sendDeadline := true;
    }

    method SendMessage(generation: nat, command: Command, accepted: bool)
      modifies this
      ensures View() == Agent.SendCommand(old(View()), generation, command, accepted)
    {
      if generation != this.generation || terminal || stopping {
        emitted := emitted + [CommandFinished(generation, command.id, false, false, StaleCommand)];
        return;
      }
      var capabilitySend := command.authority.Some? || command.hasUse;
      if capabilitySend && (command.authority.None? || !command.hasUse || authority != command.authority) {
        emitted := emitted + [CommandFinished(generation, command.id, false, false, CapabilityAuthorityMismatch)];
        Fail(CapabilityAuthorityMismatch);
        return;
      }
      if !accepted {
        emitted := emitted + [CommandFinished(generation, command.id, false, false, SendFailed)];
        Fail(SendFailed);
        return;
      }
      ArmCommandDeadline(command.id);
    }

    method CompleteCommandSubmission(commandId: nat) returns (mine: bool)
      modifies this
      ensures mine <==> old(pendingCommand) == commandId
      ensures View() == if mine then old(View()).(pendingCommand := 0, sendDeadline := false) else old(View())
    {
      if pendingCommand != commandId { return false; }
      pendingCommand := 0;
      sendDeadline := false;
      return true;
    }

    method WriteCompleted(generation: nat, commandId: nat, capabilitySend: bool, status: WriteStatus)
      modifies this
      ensures View() == Agent.CompleteSend(old(View()), generation, commandId, capabilitySend, status)
    {
      var mine := CompleteCommandSubmission(commandId);
      if !mine || generation != this.generation || terminal { return; }
      if status == Written {
        emitted := emitted + [CommandFinished(generation, commandId, true, true, NoError)];
        return;
      }
      if status == WriteCancelled && capabilitySend {
        emitted := emitted + [CommandFinished(generation, commandId, true, false, NoError)];
        return;
      }
      emitted := emitted + [CommandFinished(generation, commandId, false, false, SendFailed)];
      Fail(SendFailed);
    }

    method SendDeadlineTimeout()
      modifies this
      ensures View() == Agent.SendDeadlineFires(old(View()))
    {
      if !sendDeadline { return; }
      sendDeadline := false;
      if terminal || pendingCommand == 0 { return; }
      pendingCommand := 0;
      Fail(SendTimeout);
    }

    method ShutdownDeadlineTimeout()
      modifies this
      ensures View() == Agent.ShutdownDeadlineFires(old(View()))
    {
      if !shutdownDeadline { return; }
      shutdownDeadline := false;
      if terminal || !stopping { return; }
      Fail(ShutdownTimeout);
    }

    method BeginShutdown(generation: nat, accepted: bool)
      modifies this
      ensures View() == Agent.BeginIoShutdown(old(View()), generation, accepted)
    {
      if generation != this.generation || terminal || stopping { return; }
      stopping := true;
      awaitingGui := false;
      if !accepted {
        Fail(ShutdownSendFailed);
        return;
      }
      shutdownDeadline := true;
      pollTimer := true;
    }

    method AbortSession(generation: nat)
      modifies this
      ensures View() == Agent.AbortIo(old(View()), generation)
    {
      if generation != this.generation { return; }
      if !terminal { Close(); }
      emitted := emitted + [ThreadFinished(generation)];
    }
  }

  /** The fields come in the groups of Spec.Gui. */
  class HostWorkerSessionController {
    var life: Spec.Life
    var queue: Spec.Queue
    var routes: Spec.Routes
    var slot: Spec.Slot
    var out: Spec.Outbox

    function View(): Spec.Gui reads this { Spec.Gui(life, queue, routes, slot, out) }

    constructor ()
      ensures View() == Spec.InitialGui
    {
      life := Spec.Life(Detached, Detached, 0, false, false, false, None, NoError);
      queue := Spec.Queue([], None, 0);
      routes := Spec.Routes(map[], 0, "", false, 0);
      slot := Spec.NoSlot;
      out := Spec.Outbox([], [], [], []);
    }

    method ClearSession()
      modifies this
      ensures View() == Spec.Drop(old(View()), old(life))
    {
      queue := queue.(outbound := [], active := None);
      slot := slot.(activeRequest := "");
      ClearPendingRouteLoads();
      InvalidateCapabilityBinding();
    }

    method ClearPendingRouteLoads()
      modifies this
      ensures View() == old(View()).(routes := Spec.ClearLoads(old(routes)))
    {
      routes := routes.(loads := map[], latestId := 0, latestRoute := "", latestAcknowledged := false);
    }

    method InvalidateCapabilityBinding()
      modifies this
      ensures View() == old(View()).(slot := Spec.Slot(false, None, old(slot.activeRequest)))
    {
      slot := slot.(runtimeBound := false, authority := None);
    }

    method RequestIoStop()
      modifies this
      ensures View() == Spec.RequestIoStop(old(View()))
    {
      if life.stopRequested || !life.hasIo { return; }
      life := life.(stopRequested := true);
      out := out.(posted := out.posted + [Abort(life.generation)]);
    }

    method FailClosed(error: Error)
      modifies this
      ensures View() == Spec.FailClosed(old(View()), error)
    {
      if life.phase == Failed || life.phase == Detached { return; }
      life := life.(phase := Failed, lastError := error);
      ClearSession();
      life := life.(pendingBinding := None, cleanupFinal := Failed);
      RequestIoStop();
      out := out.(signals := out.signals + [FailedWith(life.lastError, life.generation)]);
    }

    method PumpOutbound()
      modifies this
      ensures View() == Spec.PumpOutbound(old(View()))
    {
      if life.phase != Running || !life.hasIo || queue.active.Some? || queue.outbound == [] { return; }
      queue := queue.(active := Some(queue.outbound[0]), outbound := queue.outbound[1..]);
      out := out.(posted := out.posted + [SendMessage(life.generation, queue.active.value)]);
    }

    method ResumeIoPolling()
      modifies this
      ensures View() == Spec.ResumeIoPolling(old(View()))
    {
      if !life.hasIo { return; }
      out := out.(posted := out.posted + [ResumePolling(life.generation)]);
    }

    function QueueLength(): nat reads this { |queue.outbound| + (if queue.active.Some? then 1 else 0) }

    method EnqueueMessage(message: Message, resumePollingAfter: bool) returns (ok: bool)
      modifies this
      ensures (View(), ok) == Spec.EnqueueMessage(old(View()), message, resumePollingAfter)
    {
      hide Spec.PumpOutbound;
      if QueueLength() >= MaxQueuedCommands { return false; }
      queue := queue.(nextCommand := queue.nextCommand + 1);
      queue := queue.(outbound := queue.outbound + [Command(queue.nextCommand, message, "", false, resumePollingAfter, "", None, false)]);
      PumpOutbound();
      return true;
    }

    method EnqueueRouteLoad(route: string, valid: bool) returns (ok: bool)
      modifies this
      ensures (View(), ok) == Spec.EnqueueRouteLoad(old(View()), route, valid)
    {
      hide Spec.PumpOutbound;
      if route == "" || |routes.loads| >= MaxQueuedCommands || QueueLength() >= MaxQueuedCommands { return false; }
      routes := routes.(nextLoad := routes.nextLoad + 1);
      if !valid { return false; }
      routes := routes.(loads := routes.loads[routes.nextLoad := route],
                        latestId := routes.nextLoad, latestRoute := route, latestAcknowledged := false);
      queue := queue.(nextCommand := queue.nextCommand + 1);
      queue := queue.(outbound := queue.outbound + [Command(queue.nextCommand, RouteLoad(routes.nextLoad, route),
                                                                    route, true, false, "", None, false)]);
      PumpOutbound();
      return true;
    }

    method StartSession(binding: Option<Authority>, outcome: StartOutcome) returns (ok: bool)
      modifies this
      ensures (View(), ok) == Spec.StartSession(old(View()), binding, outcome)
    {
      if life.hasIo { return false; }
      if binding.Some? && (outcome == RuntimeGone || binding.value.sessionGeneration != life.generation + 1) {
        life := life.(lastError := InvalidCapabilityBinding);
        return false;
      }
      if outcome == NoDispatchContext {
        life := life.(lastError := InvalidDispatchContext);
        return false;
      }
      life := life.(generation := life.generation + 1);
      slot := slot.(runtimeBound := binding.Some?, authority := binding);
      if slot.runtimeBound && outcome == BindRefused {
        slot := slot.(runtimeBound := false, authority := None);
        life := life.(lastError := CapabilityBindFailed);
        return false;
      }
      ClearPendingRouteLoads();
      queue := queue.(outbound := [], active := None);
      slot := slot.(activeRequest := "");
      life := life.(lastError := NoError);
      if outcome == TransferRefused {
        InvalidateCapabilityBinding();
        life := life.(phase := Failed, lastError := IoTransferFailed);
        return false;
      }
      life := life.(hasIo := true, cleanupFinal := Failed, stopRequested := false, phase := Running);
      return true;
    }

    method AttachSession(binding: Option<Authority>, outcome: StartOutcome) returns (ok: bool)
      modifies this
      ensures (View(), ok) == Spec.Attach(old(View()), binding, outcome)
    {
      hide Spec.StartSession, Spec.RequestIoStop;
      if binding.Some? && binding.value.sessionGeneration != life.generation + 1 {
        life := life.(lastError := InvalidCapabilityBinding);
        return false;
      }
      if life.hasIo {
        life := life.(pendingSession := true, pendingBinding := binding, cleanupFinal := Detached, phase := ShuttingDown);
        ClearSession();
        RequestIoStop();
        return true;
      }
      ok := StartSession(binding, outcome);
    }

    method Shutdown(hasReason: bool) returns (ok: bool)
      modifies this
      ensures (View(), ok) == Spec.Shutdown(old(View()), hasReason)
    {
      if life.phase != Running || !life.hasIo || !hasReason { return false; }
      life := life.(phase := ShuttingDown, cleanupFinal := Detached);
      ClearSession();
      out := out.(posted := out.posted + [BeginShutdown(life.generation)]);
      return true;
    }

    method RequestRouteLoad(route: string, valid: bool) returns (ok: bool)
      modifies this
      ensures (View(), ok) == Spec.RequestRouteLoad(old(View()), route, valid)
    {
      if life.phase != Running { return false; }
      ok := EnqueueRouteLoad(route, valid);
    }

    method SendVisibilityChanged(active: bool) returns (ok: bool)
      modifies this
      ensures (View(), ok) == Spec.SendVisibilityChanged(old(View()), active)
    {
      if life.phase != Running { return false; }
      ok := EnqueueMessage(VisibilityChanged(active), false);
    }

    method UnbindCapabilityRuntime(bound: Authority)
      modifies this
      ensures View() == Spec.UnbindCapabilityRuntime(old(View()), bound)
    {
      if slot.authority != Some(bound) { return; }
      InvalidateCapabilityBinding();
    }

    /** Up to the navigation callback; `frames` says whether it is called. */
    method HandleNavigationRequest(generation: nat, requestId: string, route: string, valid: bool)
      returns (frames: seq<Frame>)
      modifies this
      ensures (View(), frames) == Spec.NavigationArrives(old(View()), generation, requestId, route, valid)
    {
      if generation != life.generation || life.phase != Running { return []; }
      if routes.loads != map[] {
        RefuseNavigation(requestId, valid);
        return [];
      }
      return [Navigating(generation, requestId, route)];
    }

    method RefuseNavigation(requestId: string, valid: bool)
      modifies this
      ensures View() == Spec.ReplyAndResume(old(View()), requestId, valid)
    {
      var ok := false;
      if valid { ok := EnqueueMessage(NavigationReply(requestId, false), true); }
      if !ok { FailClosed(ResponseQueueFailed); }
    }

    /** From the callback's return. */
    method FinishNavigationRequest(generation: nat, requestId: string, route: string, navigation: Navigation, valid: bool,
                                   loadValid: bool)
      modifies this
      ensures View() == Spec.NavigationReturns(old(View()), generation, requestId, route, navigation, valid, loadValid)
    {
      if navigation == Threw {
        FailClosed(NavigationCallbackFailed);
        return;
      }
      if generation != life.generation || life.phase != Running { return; }
      if navigation == Refused {
        RefuseNavigation(requestId, valid);
        return;
      }
      var ok := false;
      if valid { ok := EnqueueMessage(NavigationReply(requestId, true), false); }
      if ok { ok := EnqueueRouteLoad(route, loadValid); }
      if !ok {
        FailClosed(OutboundQueueFull);
        return;
      }
      // Two commands have just been queued and at most one has been sent: the queue is not empty.
      var back := |queue.outbound| - 1;
      queue := queue.(outbound := queue.outbound[back := queue.outbound[back].(resumePollingAfter := true)]);
    }

    /** Up to the routeLoadAcknowledged signal. */
    method HandleRouteLoadResponse(generation: nat, loadId: nat, success: bool, route: string) returns (frames: seq<Frame>)
      modifies this
      ensures (View(), frames) == Spec.RouteResponseArrives(old(View()), generation, loadId, success, route)
    {
      hide Spec.FailClosed, Spec.ResumeIoPolling;
      if generation != life.generation || life.phase != Running { return []; }
      if loadId !in routes.loads {
        FailClosed(UnexpectedResponse);
        return [];
      }
      if !success || routes.loads[loadId] != route {
        FailClosed(RouteLoadRejected);
        return [];
      }
      routes := routes.(loads := routes.loads - {loadId});
      if loadId == routes.latestId { routes := routes.(latestAcknowledged := true); }
      if routes.loads == map[] {
        if !routes.latestAcknowledged || routes.latestId == 0 || routes.latestRoute == "" {
          FailClosed(RouteLoadCompletionMismatch);
          return [];
        }
        var acknowledged := routes.latestRoute;
        routes := routes.(latestId := 0, latestRoute := "", latestAcknowledged := false);
        out := out.(signals := out.signals + [RouteLoadAcknowledged(acknowledged, generation)]);
        return [Acknowledging(generation)];
      }
      ResumeIoPolling();
      return [];
    }

    /** From the return of the observers of a request; `use` says whether a response use is acquired. */
    method FinishCapabilityRequest(requestAuthority: Option<Authority>, generation: nat, requestId: string, use: bool,
                                   valid: bool)
      modifies this
      ensures View() == Spec.CapabilityObserved(old(View()), requestAuthority, generation, requestId, use, valid)
    {
      if generation != life.generation || life.phase != Running { return; }
      if slot.activeRequest != "" {
        if !slot.runtimeBound || slot.authority.None? || requestAuthority != slot.authority {
          FailClosed(CapabilityAuthorityMismatch);
          return;
        }
        var ok := false;
        if use {
          ok := QueueCapabilityResponse(requestAuthority, true, generation, requestId, BrokerResult(false, Busy), false, valid);
        }
        if !ok { FailClosed(ResponseQueueFailed); }
        return;
      }
      slot := slot.(activeRequest := requestId);
      if !slot.runtimeBound || slot.authority.None? {
        if requestAuthority.Some? {
          slot := slot.(activeRequest := "");
          FailClosed(CapabilityAuthorityMismatch);
          return;
        }
        var _ := QueueCapabilityResponse(None, false, generation, requestId, BrokerResult(false, Denied), true, valid);
        return;
      }
      if requestAuthority != slot.authority {
        slot := slot.(activeRequest := "");
        FailClosed(CapabilityAuthorityMismatch);
        return;
      }
      out := out.(dispatched := out.dispatched + [Dispatch(generation, requestId, slot.authority.value)]);
    }

    method QueueCapabilityResponse(responseAuthority: Option<Authority>, hasUse: bool, generation: nat, requestId: string,
                                   result: BrokerResult, completes: bool, valid: bool) returns (ok: bool)
      modifies this
      ensures (View(), ok) == Spec.QueueCapabilityResponse(old(View()), responseAuthority, hasUse, generation, requestId,
                                                           result, completes, valid)
    {
      hide Spec.PumpOutbound;
      if generation != life.generation || life.phase != Running || requestId == ""
         || (completes && requestId != slot.activeRequest)
         || (!completes && (slot.activeRequest == "" || requestId == slot.activeRequest || result.ok || result.code != Busy))
      {
        return false;
      }
      if responseAuthority.Some? {
        if !hasUse || slot.authority != responseAuthority || !slot.runtimeBound { return false; }
      } else if slot.authority.Some? || hasUse || slot.runtimeBound || result.ok || result.code != Denied {
        return false;
      }
      if !valid {
        out := out.(selfPosted := out.selfPosted + [PostedFailure(generation, ResponseInvalid)]);
        return false;
      }
      if QueueLength() >= MaxQueuedCommands {
        out := out.(selfPosted := out.selfPosted + [PostedFailure(generation, ResponseQueueFailed)]);
        return false;
      }
      queue := queue.(nextCommand := queue.nextCommand + 1);
      var command := Command(queue.nextCommand, CapabilityReply(requestId, result), "", false, false,
                             if completes then requestId else "", responseAuthority, hasUse);
      queue := queue.(outbound := queue.outbound + [command]);
      PumpOutbound();
      return true;
    }

    method SubmitCapabilityCompletion(done: Dispatch, hasUse: bool, result: BrokerResult, valid: bool) returns (ok: bool)
      modifies this
      ensures (View(), ok) == Spec.SubmitCapabilityCompletion(old(View()), done, hasUse, result, valid)
    {
      if !hasUse { return false; }
      ok := QueueCapabilityResponse(Some(done.authority), true, done.generation, done.requestId, result, true, valid);
    }

    /** Up to the capabilityResponseSent signal. */
    method HandleCommandFinished(generation: nat, commandId: nat, success: bool, published: bool, error: Error)
      returns (frames: seq<Frame>)
      modifies this
      ensures (View(), frames) == Spec.CommandFinishes(old(View()), generation, commandId, success, published, error)
    {
      hide Spec.FailClosed, Spec.PumpOutbound, Spec.ResumeIoPolling;
      if generation != life.generation || life.phase != Running || queue.active.None? || queue.active.value.id != commandId {
        return [];
      }
      var resume := queue.active.value.resumePollingAfter;
      var completed := queue.active.value.capabilityRequestId;
      queue := queue.(active := None);
      if !success {
        FailClosed(if error == NoError then SendFailed else error);
        return [];
      }
      if published && completed != "" && completed == slot.activeRequest {
        slot := slot.(activeRequest := "");
        out := out.(signals := out.signals + [CapabilityResponseSent(completed, generation)]);
        return [ReportingSent(generation, resume)];
      } else if !published && completed != "" && completed == slot.activeRequest {
        slot := slot.(activeRequest := "");
      }
      PumpOutbound();
      if resume { ResumeIoPolling(); }
      return [];
    }

    /** From the return of the observers of capabilityResponseSent. */
    method FinishSentReport(generation: nat, resume: bool)
      modifies this
      ensures View() == Spec.SentReportReturns(old(View()), generation, resume)
    {
      if generation != life.generation || life.phase != Running { return; }
      PumpOutbound();
      if resume { ResumeIoPolling(); }
    }

    method HandleShutdownFinished(generation: nat)
      modifies this
      ensures View() == Spec.ShutdownFinishes(old(View()), generation)
    {
      if generation != life.generation || life.phase != ShuttingDown { return; }
      ClearPendingRouteLoads();
      queue := queue.(outbound := [], active := None);
      life := life.(cleanupFinal := Detached);
      RequestIoStop();
    }

    method HandleIoThreadFinished(generation: nat, outcome: StartOutcome)
      modifies this
      ensures View() == Spec.ThreadFinishes(old(View()), generation, outcome)
    {
      hide Spec.StartSession;
      if generation != life.generation || !life.hasIo { return; }
      life := life.(hasIo := false, stopRequested := false);
      ClearSession();
      if life.pendingSession {
        var replacement := life.pendingBinding;
        life := life.(pendingSession := false, pendingBinding := None, phase := Detached);
        var started := StartSession(replacement, outcome);
        if !started {
          life := life.(phase := Failed, lastError := ReattachFailed);
          out := out.(signals := out.signals + [FailedWith(ReattachFailed, life.generation)]);
        }
        return;
      }
      life := life.(phase := life.cleanupFinal);
      out := out.(signals := out.signals + [SessionDetached(life.generation)]);
    }
  }
}
