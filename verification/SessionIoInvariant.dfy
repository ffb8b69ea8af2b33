/** The IO agent's steps keep the invariant of the composed session; with the controller's, so does every step. */
module SessionIoInvariant {
  import opened Common
  import opened SessionTypes
  import opened SessionController
  import opened SessionIo
  import opened SessionSystem
  import opened SessionInvariant

  // ---- Events the agent emits --------------------------------------------------------

  /** A worker message that needs an answer creates the one token while polling stops. */
  lemma AwaitPolling(g: nat, q: Queue, io: Io, toIo: seq<IoEvent>, toGui: seq<GuiEvent>, frames: seq<Frame>, e: GuiEvent)
    requires Polling(g, q, io, toIo, toGui, frames, 0) && !io.awaitingGui && io.started && AwaitedEvent(g)(e)
    ensures Polling(g, q, io.(awaitingGui := true, pollTimer := false), toIo, toGui + [e], frames, 0)
  {
    CountSnoc(toGui, e, AwaitedEvent(g));
  }

  lemma EmitSending(g: nat, q: Queue, io: Io, io': Io, toIo: seq<IoEvent>, toGui: seq<GuiEvent>, base: nat,
                    delivered: seq<nat>, e: GuiEvent)
    requires Sending(g, q, io, toIo, toGui, base, delivered) && !e.CommandFinished?
    requires (io'.pendingCommand == io.pendingCommand && io'.terminal == io.terminal)
             || (io'.pendingCommand == 0 && io'.terminal)
    ensures Sending(g, q, io', toIo, toGui + [e], base, delivered)
  {
    CountSnoc(toGui, e, FinishedEvent(g));
  }

  /** What the system looks like once the agent has run to `io`. */
  function Now(s: System, io: Io): System {
    AbsorbIo(s, io)
  }

  lemma EmitQueue(s: System, io: Io, io': Io, e: GuiEvent)
    requires io'.emitted == io.emitted + [e]
    ensures Now(s, io').toGui == Now(s, io).toGui + [e]
  {}

  lemma AwaitInv(s: System, io: Io, e: GuiEvent)
    requires Holds(Now(s, io), 0) && e.generation == s.gui.life.generation
    requires s.gui.life.phase == Running ==> !io.terminal && !io.awaitingGui && io.started
    requires e.NavigationRequested? || e.RouteLoadResponse?
    ensures Holds(Now(s, Await(io, e)), 0)
  {
    hide Polling, Sending, SingleFlight, Loading;
    var io' := Await(io, e);
    EmitQueue(s, io, io', e);
    if s.gui.life.phase == Running {
      var t, g := Now(s, io), s.gui.life.generation;
      AwaitPolling(g, s.gui.queue, t.io.value, s.toIo, t.toGui, s.frames, e);
      EmitSending(g, s.gui.queue, t.io.value, t.io.value.(awaitingGui := true, pollTimer := false), s.toIo, t.toGui,
                  s.base, s.delivered, e);
    }
  }

  lemma RequestPolling(g: nat, q: Queue, io: Io, toIo: seq<IoEvent>, toGui: seq<GuiEvent>, frames: seq<Frame>, e: GuiEvent)
    requires Polling(g, q, io, toIo, toGui, frames, 0) && e.CapabilityRequested?
    ensures Polling(g, q, io, toIo, toGui + [e], frames, 0)
  {
    CountSnoc(toGui, e, AwaitedEvent(g));
  }

  lemma RequestTransit(life: Life, authority: Option<Authority>, io: Io, toIo: seq<IoEvent>, toGui: seq<GuiEvent>,
                       frames: seq<Frame>, e: GuiEvent)
    requires Lively(life, io, toIo, toGui) && InTransit(life.generation, authority, toIo, toGui, frames)
    requires e.CapabilityRequested? && e.authority == authority && e.requestId != ""
    ensures Lively(life, io, toIo, toGui + [e]) && InTransit(life.generation, authority, toIo, toGui + [e], frames)
  {
    if io.terminal {
      var f :| f in toGui && f.SessionFailed? && f.generation == life.generation;
      assert f in toGui + [e];
    }
  }

  lemma RequestEmittedInv(s: System, io: Io, requestId: string)
    requires Holds(Now(s, io), 0) && (s.gui.life.phase == Running ==> requestId != "")
    ensures Holds(Now(s, Emit(io, CapabilityRequested(io.authority, io.generation, requestId))), 0)
  {
    hide Sending, SingleFlight, Loading, Polling, Lively, InTransit;
    var e := CapabilityRequested(io.authority, io.generation, requestId);
    EmitQueue(s, io, Emit(io, e), e);
    if s.gui.life.phase == Running {
      var t, g := Now(s, io), s.gui.life.generation;
      RequestPolling(g, s.gui.queue, t.io.value, s.toIo, t.toGui, s.frames, e);
      RequestTransit(s.gui.life, io.authority, t.io.value, s.toIo, t.toGui, s.frames, e);
      EmitSending(g, s.gui.queue, t.io.value, t.io.value, s.toIo, t.toGui, s.base, s.delivered, e);
    }
  }

  /** A failing agent closes the pipe and reports it; no token is owed any more. */
  lemma FailIoInv(s: System, io: Io, error: Error)
    requires Holds(Now(s, io), 0)
    ensures Holds(Now(s, Fail(io, error)), 0) && Fail(io, error).incoming == io.incoming
  {
    hide Sending, SingleFlight, Loading;
    var io' := Fail(io, error);
    if !io.terminal {
      var e := io'.emitted[|io'.emitted| - 1];
      EmitQueue(s, io, io', e);
      if s.gui.life.phase == Running {
        var t, g := Now(s, io), s.gui.life.generation;
        EmitSending(g, s.gui.queue, t.io.value, Now(s, io').io.value, s.toIo, t.toGui, s.base, s.delivered, e);
        assert e in Now(s, io').toGui;
      }
    }
  }

  /** The answer to a shutdown is never due in a running session. */
  lemma FinishShutdownInv(s: System, io: Io)
    requires Holds(Now(s, io), 0) && io.stopping
    ensures Holds(Now(s, FinishShutdown(io)), 0) && FinishShutdown(io).incoming == io.incoming
  {
    hide Sending, SingleFlight, Loading, Polling;
  }

  lemma ReceiveInv(s: System, io: Io, received: Received)
    requires Holds(Now(s, io), 0)
    requires s.gui.life.phase == Running ==> WellFormed(received) && !io.terminal && !io.awaitingGui && io.started
    ensures var (next, more) := Receive(io, received);
      && Holds(Now(s, next), 0)
      && (more && s.gui.life.phase == Running ==> !next.terminal && !next.awaitingGui && next.started)
      && next.incoming == io.incoming
  {
    hide RunningInv, Fail, FinishShutdown;
    match received
    case NavigationRequest(requestId, route) =>
      AwaitInv(s, io, NavigationRequested(io.generation, requestId, route));
    case Response(loadId, ok, route) =>
      AwaitInv(s, io, RouteLoadResponse(io.generation, loadId, ok, route));
    case CapabilityRequest(requestId) => RequestEmittedInv(s, io, requestId);
    case PeerShutdownMessage => if io.stopping { FinishShutdownInv(s, io); } else { FailIoInv(s, io, PeerShutdown); }
    case Unexpected => FailIoInv(s, io, UnexpectedMessage);
    case PeerClosed => if io.stopping { FinishShutdownInv(s, io); } else { FailIoInv(s, io, ReceiveFailed); }
    case Broken => FailIoInv(s, io, ReceiveFailed);
    case _ =>
  }

  // ---- Turns of the agent --------------------------------------------------------------

  lemma TakeInv(s: System, io: Io)
    requires Holds(Now(s, io), 0) && io.incoming != []
    ensures Holds(Now(s, io.(incoming := io.incoming[1..])), 0)
    ensures s.gui.life.phase == Running ==> WellFormed(io.incoming[0])
  {
    hide SingleFlight, Loading;
    assert io.incoming[0] in io.incoming;
  }

  /** However many messages a turn takes, it stops at the first one the GUI must answer. */
  lemma {:induction false} PollTurnInv(s: System, io: Io, budget: nat)
    requires Holds(Now(s, io), 0)
    requires s.gui.life.phase == Running ==> !io.terminal && !io.awaitingGui && io.started
    ensures Holds(Now(s, PollTurn(io, budget)), 0)
    decreases budget
  {
    hide RunningInv, Shape, Receive, Now;
    if budget > 0 && io.incoming != [] {
      TakeInv(s, io);
      var rest := io.(incoming := io.incoming[1..]);
      ReceiveInv(s, rest, io.incoming[0]);
      var (next, more) := Receive(rest, io.incoming[0]);
      if more { PollTurnInv(s, next, budget - 1); }
    }
  }

  lemma PollSessionInv(s: System, io: Io)
    requires Holds(Now(s, io), 0) && io.started
    ensures Holds(Now(s, PollSession(io)), 0)
  {
    hide Holds, Now, PollTurn;
    if !io.terminal && !io.awaitingGui { PollTurnInv(s, io, MaxMessagesPerTurn); }
  }

  /** Nothing about the agent but its poll timer, its deadlines and its token changes. */
  lemma TimerInv(s: System, io: Io, held: nat)
    requires Holds(s, held) && s.io.Some?
    requires io == s.io.value.(started := io.started, pollTimer := io.pollTimer, awaitingGui := io.awaitingGui,
                               sendDeadline := io.sendDeadline, shutdownDeadline := io.shutdownDeadline)
    requires s.gui.life.phase == Running ==>
               && !io.shutdownDeadline && (s.io.value.started ==> io.started) && (!io.started ==> !io.awaitingGui)
               && (io.pollTimer <==> io.started && !io.terminal && !io.awaitingGui)
               && (!io.terminal ==> held + (if io.awaitingGui then 1 else 0) == (if s.io.value.awaitingGui then 1 else 0))
    ensures Inv(Now(s, io))
  {
    hide Sending, SingleFlight, Loading;
    assert s.toGui + [] == s.toGui;
    if s.gui.life.phase == Running {
      SendingIgnoresTimers(s.gui.life.generation, s.gui.queue, s.io.value, io, s.toIo, s.toGui, s.base, s.delivered);
    }
  }

  lemma SendingIgnoresTimers(g: nat, q: Queue, io: Io, io': Io, toIo: seq<IoEvent>, toGui: seq<GuiEvent>, base: nat,
                             delivered: seq<nat>)
    requires Sending(g, q, io, toIo, toGui, base, delivered)
    requires io'.pendingCommand == io.pendingCommand && io'.terminal == io.terminal
    ensures Sending(g, q, io', toIo, toGui, base, delivered)
  {}

  lemma StartIoInv(s: System)
    requires Inv(s) && s.io.Some? && !s.io.value.started
    ensures Inv(Now(s, Start(s.io.value)))
  {
    hide Polling, Sending, Loading, SingleFlight, InTransit, PollSession, Now;
    var io := s.io.value;
    if io.terminal {
      NotAwaiting(s);
      TimerInv(s, io.(started := true), 0);
    } else {
      NotAwaiting(s);
      TimerInv(s, io.(started := true, pollTimer := true), 0);
      PollSessionInv(s, io.(started := true, pollTimer := true));
    }
  }

  lemma NotAwaiting(s: System)
    requires Inv(s) && s.io.Some? && !s.io.value.started
    ensures s.gui.life.phase == Running ==> !s.io.value.awaitingGui
  {}

  function PopIo(s: System): System
    requires s.toIo != []
  {
    s.(toIo := s.toIo[1..])
  }

  /** A queued resume hands its token to the agent. */
  lemma PopResumeInv(s: System)
    requires Inv(s) && s.toIo != [] && s.toIo[0].ResumePolling?
    ensures Holds(PopIo(s), 1)
  {
    hide SingleFlight, Loading;
  }

  lemma ResumeIoInv(s: System)
    requires Inv(s) && s.io.Some? && s.io.value.started && s.toIo != [] && s.toIo[0].ResumePolling?
    ensures Inv(Now(PopIo(s), ResumeIo(s.io.value, s.toIo[0].generation)))
  {
    hide Sending, Loading, SingleFlight, InTransit, PollSession, Now;
    var io, t := s.io.value, PopIo(s);
    PopResumeInv(s);
    if io.terminal || io.stopping {
      TimerInv(t, io, 1);
    } else {
      TimerInv(t, io.(awaitingGui := false, pollTimer := true), 1);
      PollSessionInv(t, io.(awaitingGui := false, pollTimer := true));
    }
  }

  // ---- Sends ---------------------------------------------------------------------------

  /** The agent takes the command from its queue and writes it under a deadline. */
  lemma ArmSending(g: nat, q: Queue, io: Io, toIo: seq<IoEvent>, toGui: seq<GuiEvent>, base: nat, delivered: seq<nat>)
    requires Sending(g, q, io, toIo, toGui, base, delivered) && toIo != [] && toIo[0].SendMessage? && !io.terminal
    ensures io.pendingCommand == 0
    ensures var id := toIo[0].command.id;
      Sending(g, q, io.(pendingCommand := id, sendDeadline := true), toIo[1..], toGui, base, delivered + [id])
  {
    assert toIo[0] in toIo;
    CountZero(toIo[1..], IsSend);
    CountZero(toGui, FinishedEvent(g));
  }

  /** The agent takes the command from its queue and reports at once that it will not be written. */
  lemma RefuseSending(g: nat, q: Queue, io: Io, toIo: seq<IoEvent>, toGui: seq<GuiEvent>, base: nat, delivered: seq<nat>,
                      e: GuiEvent)
    requires Sending(g, q, io, toIo, toGui, base, delivered) && toIo != [] && toIo[0].SendMessage?
    requires e.CommandFinished? && e.generation == g && e.commandId == toIo[0].command.id
    ensures Sending(g, q, io, toIo[1..], toGui + [e], base, delivered + [toIo[0].command.id])
  {
    assert toIo[0] in toIo;
    CountSnoc(toGui, e, FinishedEvent(g));
  }

  /** The pipe's report on the pending command travels back to the controller. */
  lemma ReportSending(g: nat, q: Queue, io: Io, toIo: seq<IoEvent>, toGui: seq<GuiEvent>, base: nat, delivered: seq<nat>,
                      e: GuiEvent)
    requires Sending(g, q, io, toIo, toGui, base, delivered) && io.pendingCommand != 0
    requires e.CommandFinished? && e.generation == g && e.commandId == io.pendingCommand
    ensures Sending(g, q, io.(pendingCommand := 0, sendDeadline := false), toIo, toGui + [e], base, delivered)
  {
    CountSnoc(toGui, e, FinishedEvent(g));
  }

  lemma ReportPolling(g: nat, q: Queue, io: Io, io': Io, toIo: seq<IoEvent>, toIo': seq<IoEvent>, toGui: seq<GuiEvent>,
                      frames: seq<Frame>, e: GuiEvent)
    requires Polling(g, q, io, toIo, toGui, frames, 0) && e.CommandFinished?
    requires io'.terminal == io.terminal && io'.awaitingGui == io.awaitingGui && io'.started == io.started
    requires toIo' == toIo || (toIo != [] && toIo' == toIo[1..] && toIo[0].SendMessage?)
    ensures Polling(g, q, io', toIo', toGui + [e], frames, 0)
  {
    CountSnoc(toGui, e, AwaitedEvent(g));
  }

  /** The system once the first queued command has reached the agent. */
  function TakeSend(s: System): System
    requires s.toIo != [] && s.toIo[0].SendMessage?
  {
    PopIo(s).(delivered := s.delivered + [s.toIo[0].command.id])
  }

  lemma ReportTransit(life: Life, authority: Option<Authority>, io: Io, toIo: seq<IoEvent>, toIo': seq<IoEvent>,
                      toGui: seq<GuiEvent>, frames: seq<Frame>, e: GuiEvent)
    requires Lively(life, io, toIo, toGui) && InTransit(life.generation, authority, toIo, toGui, frames)
    requires e.CommandFinished? && (toIo' == toIo || (toIo != [] && toIo' == toIo[1..]))
    ensures Lively(life, io, toIo', toGui + [e]) && InTransit(life.generation, authority, toIo', toGui + [e], frames)
  {}

  lemma RefusedSendInv(s: System, error: Error)
    requires Inv(s) && s.io.Some? && s.toIo != [] && s.toIo[0].SendMessage?
    ensures Inv(Now(TakeSend(s), Emit(s.io.value, CommandFinished(s.toIo[0].generation, s.toIo[0].command.id, false, false, error))))
  {
    hide Sending, Polling, SingleFlight, Loading, Lively, InTransit;
    var io, g := s.io.value, s.gui.life.generation;
    var e := CommandFinished(s.toIo[0].generation, s.toIo[0].command.id, false, false, error);
    assert s.toIo[0] in s.toIo;
    if s.gui.life.phase == Running {
      RefuseSending(g, s.gui.queue, io, s.toIo, s.toGui, s.base, s.delivered, e);
      ReportPolling(g, s.gui.queue, io, io, s.toIo, s.toIo[1..], s.toGui, s.frames, e);
      ReportTransit(s.gui.life, io.authority, io, s.toIo, s.toIo[1..], s.toGui, s.frames, e);
      assert Emit(io, e).emitted == [e];
    }
  }

  lemma ArmedSendInv(s: System)
    requires Inv(s) && s.io.Some? && s.toIo != [] && s.toIo[0].SendMessage? && !s.io.value.terminal
    ensures Inv(Now(TakeSend(s), ArmDeadline(s.io.value, s.toIo[0].command.id)))
  {
    hide Sending, SingleFlight, Loading;
    var io, g := s.io.value, s.gui.life.generation;
    assert s.toGui + [] == s.toGui;
    if s.gui.life.phase == Running {
      ArmSending(g, s.gui.queue, io, s.toIo, s.toGui, s.base, s.delivered);
    }
  }

  /** A running session never sends on behalf of an authority that is not its own. */
  lemma SendIsAuthorised(s: System)
    requires Inv(s) && s.io.Some? && s.toIo != [] && s.toIo[0].SendMessage?
    ensures s.toIo[0].generation == s.io.value.generation
    ensures s.gui.life.phase == Running ==> !AuthorityMismatch(s.io.value, s.toIo[0].command)
  {
    assert s.toIo[0] in s.toIo;
  }

  lemma SendCommandInv(s: System, accepted: bool)
    requires Inv(s) && s.io.Some? && s.toIo != [] && s.toIo[0].SendMessage?
    ensures Inv(Now(TakeSend(s), SendCommand(s.io.value, s.toIo[0].generation, s.toIo[0].command, accepted)))
  {
    hide RunningInv, Now, ArmDeadline, Fail, Shape;
    var io, command, g := s.io.value, s.toIo[0].command, s.toIo[0].generation;
    SendIsAuthorised(s);
    if io.terminal || io.stopping {
      RefusedSendInv(s, StaleCommand);
    } else if AuthorityMismatch(io, command) {
      RefusedSendInv(s, CapabilityAuthorityMismatch);
      FailIoInv(TakeSend(s), Emit(io, CommandFinished(g, command.id, false, false, CapabilityAuthorityMismatch)),
                CapabilityAuthorityMismatch);
    } else if !accepted {
      RefusedSendInv(s, SendFailed);
      FailIoInv(TakeSend(s), Emit(io, CommandFinished(g, command.id, false, false, SendFailed)), SendFailed);
    } else {
      ArmedSendInv(s);
    }
  }

  lemma Unarmed(life: Life, io: Io, io': Io, toIo: seq<IoEvent>, toGui: seq<GuiEvent>)
    requires Lively(life, io, toIo, toGui) && io' == io.(pendingCommand := 0, sendDeadline := false)
    ensures Lively(life, io', toIo, toGui)
  {}

  lemma ReportedSendInv(s: System, success: bool, published: bool, error: Error)
    requires Inv(s) && s.io.Some? && s.io.value.pendingCommand != 0
    ensures
      var io := s.io.value;
      var e := CommandFinished(io.generation, io.pendingCommand, success, published, error);
      Inv(Now(s, Emit(io.(pendingCommand := 0, sendDeadline := false), e)))
  {
    hide Sending, Polling, SingleFlight, Loading, Lively, InTransit;
    var io, g := s.io.value, s.gui.life.generation;
    var e := CommandFinished(io.generation, io.pendingCommand, success, published, error);
    var io' := io.(pendingCommand := 0, sendDeadline := false);
    if s.gui.life.phase == Running {
      ReportTransit(s.gui.life, io.authority, io, s.toIo, s.toIo, s.toGui, s.frames, e);
      Unarmed(s.gui.life, io, io', s.toIo, s.toGui + [e]);
      ReportSending(g, s.gui.queue, io, s.toIo, s.toGui, s.base, s.delivered, e);
      ReportPolling(g, s.gui.queue, io, io', s.toIo, s.toIo, s.toGui, s.frames, e);
      assert Emit(io', e).emitted == [e];
    }
  }

  lemma SameInv(s: System)
    requires Inv(s) && s.io.Some?
    ensures Inv(Now(s, s.io.value))
  {
    hide RunningInv;
    assert s.toGui + [] == s.toGui;
    assert Now(s, s.io.value) == s;
  }

  /** Outside a running session any report that leaves the shape alone is harmless; a closed pipe has no pending command. */
  lemma StaleReportInv(s: System, commandId: nat, capabilitySend: bool, status: WriteStatus)
    requires Inv(s) && s.io.Some? && commandId in s.delivered
    requires s.gui.life.phase != Running || s.io.value.terminal
    ensures Inv(Now(s, CompleteSend(s.io.value, s.io.value.generation, commandId, capabilitySend, status)))
  {
    hide RunningInv;
    assert s.toGui + [] == s.toGui;
    if s.gui.life.phase == Running {
      ClosedInv(s);
      SameInv(s);
    } else {
      hide Shape;
      ShapeNow(s, CompleteSend(s.io.value, s.io.value.generation, commandId, capabilitySend, status));
    }
  }

  lemma ShapeNow(s: System, io: Io)
    requires Inv(s) && s.gui.life.phase != Running && s.io.Some? && io.generation == s.io.value.generation
    requires forall e <- io.emitted :: e.generation == io.generation
    ensures s.io.value.emitted == [] && Inv(Now(s, io))
  {
    hide RunningInv;
  }

  lemma ClosedInv(s: System)
    requires Inv(s) && s.io.Some? && s.io.value.terminal && s.gui.life.phase == Running
    ensures Inv(Now(s, s.io.value.(pendingCommand := 0, sendDeadline := false)))
  {
    hide SingleFlight, Loading, InTransit, Polling, Sending, Lively;
    assert s.toGui + [] == s.toGui;
    var io := s.io.value;
    ClosedParts(s.gui.life, s.gui.queue, io, io.(pendingCommand := 0, sendDeadline := false), s.toIo, s.toGui, s.frames,
                s.base, s.delivered);
  }

  /** Once the pipe is closed its pending command and its deadline no longer matter. */
  lemma ClosedParts(life: Life, q: Queue, io: Io, io': Io, toIo: seq<IoEvent>, toGui: seq<GuiEvent>, frames: seq<Frame>,
                    base: nat, delivered: seq<nat>)
    requires io.terminal && io' == io.(pendingCommand := 0, sendDeadline := false)
    requires Lively(life, io, toIo, toGui) && Polling(life.generation, q, io, toIo, toGui, frames, 0)
    requires Sending(life.generation, q, io, toIo, toGui, base, delivered)
    ensures Lively(life, io', toIo, toGui) && Polling(life.generation, q, io', toIo, toGui, frames, 0)
    ensures Sending(life.generation, q, io', toIo, toGui, base, delivered)
  {}

  /** A pipe report is believed only for the pending command, however late or repeated it is. */
  lemma CompleteSendInv(s: System, commandId: nat, capabilitySend: bool, status: WriteStatus)
    requires Inv(s) && s.io.Some? && commandId in s.delivered
    ensures Inv(Now(s, CompleteSend(s.io.value, s.io.value.generation, commandId, capabilitySend, status)))
  {
    hide RunningInv, Now, Fail, Shape;
    var io := s.io.value;
    DeliveredIsPositive(s, commandId);
    if s.gui.life.phase != Running || io.terminal {
      StaleReportInv(s, commandId, capabilitySend, status);
    } else if io.pendingCommand != commandId {
      SameInv(s);
    } else if status == Written {
      ReportedSendInv(s, true, true, NoError);
    } else if status == WriteCancelled && capabilitySend {
      ReportedSendInv(s, true, false, NoError);
    } else {
      ReportedSendInv(s, false, false, SendFailed);
      FailIoInv(s, Emit(io.(pendingCommand := 0, sendDeadline := false),
                        CommandFinished(io.generation, commandId, false, false, SendFailed)), SendFailed);
    }
  }

  lemma DeliveredIsPositive(s: System, commandId: nat)
    requires Inv(s) && commandId in s.delivered
    ensures s.gui.life.phase == Running ==> commandId > 0
  {}

  // ---- Deadlines, shutdown and abort ------------------------------------------------------

  lemma SendDeadlineInv(s: System)
    requires Inv(s) && s.io.Some?
    ensures Inv(Now(s, SendDeadlineFires(s.io.value)))
  {
    hide RunningInv, Now, Shape;
    var io := s.io.value;
    SameInv(s);
    if io.sendDeadline {
      if io.terminal || io.pendingCommand == 0 {
        DisarmInv(s);
      } else {
        FailIoInv(s, io, SendTimeout);
      }
    }
  }

  lemma DisarmInv(s: System)
    requires Inv(s) && s.io.Some?
    ensures Inv(Now(s, s.io.value.(sendDeadline := false)))
  {
    hide SingleFlight, Loading;
    assert s.toGui + [] == s.toGui;
  }

  /** Shutdown deadlines are armed only outside a running session, where any report is harmless. */
  lemma ShutdownStepInv(s: System, io: Io)
    requires Inv(s) && s.io.Some? && s.gui.life.phase != Running
    requires io.generation == s.io.value.generation && forall e <- io.emitted :: e.generation == io.generation
    ensures Inv(Now(s, io))
  {}

  lemma ShutdownDeadlineInv(s: System)
    requires Inv(s) && s.io.Some?
    ensures Inv(Now(s, ShutdownDeadlineFires(s.io.value)))
  {
    if s.gui.life.phase == Running { SameInv(s); } else { ShutdownStepInv(s, ShutdownDeadlineFires(s.io.value)); }
  }

  lemma DeliverIoInv(s: System, accepted: bool)
    requires Inv(s) && s.io.Some? && s.io.value.started && s.toIo != []
    ensures Inv(DeliverIo(PopIo(s), s.io.value, s.toIo[0], accepted))
  {
    hide RunningInv, AbsorbIo, SendCommand, ResumeIo, Shape;
    var e, io := s.toIo[0], s.io.value;
    match e
    case SendMessage(generation, command) => SendCommandInv(s, accepted);
    case ResumePolling(generation) => ResumeIoInv(s);
    case BeginShutdown(generation) =>
      OnlyRunningCalls(s);
      ShutdownStepInv(PopIo(s), BeginIoShutdown(io, generation, accepted));
    case Abort(generation) =>
      OnlyRunningCalls(s);
      ShutdownStepInv(PopIo(s), AbortIo(io, generation));
  }

  /** A running session has neither its shutdown nor its abort queued. */
  lemma OnlyRunningCalls(s: System)
    requires Inv(s) && s.io.Some? && s.toIo != []
    ensures s.toIo[0].generation == s.io.value.generation && s.io.value.emitted == []
    ensures s.toIo[0].BeginShutdown? || s.toIo[0].Abort? ==> s.gui.life.phase != Running && Inv(PopIo(s))
  {
    assert s.toIo[0] in s.toIo;
  }

  lemma PeerSendsInv(s: System, received: Received)
    requires Inv(s)
    ensures Inv(Next(s, PeerSends(received)))
  {
    hide SingleFlight, Loading;
  }

  lemma NextIoInv(s: System, a: Action)
    requires Inv(s) && s.io.Some? && s.io.value.started
    ensures Inv(NextIo(s, s.io.value, a))
  {
    hide RunningInv, AbsorbIo, Shape, DeliverIo;
    var io := s.io.value;
    match a
    case DeliverToIo(accepted) => if s.toIo != [] { DeliverIoInv(s, accepted); }
    case FirePollTimer =>
      SameInv(s);
      PollSessionInv(s, io);
    case FireSendDeadline => SendDeadlineInv(s);
    case FireShutdownDeadline => ShutdownDeadlineInv(s);
    case CompletePipeWrite(commandId, capabilitySend, status) =>
      if commandId in s.delivered { CompleteSendInv(s, commandId, capabilitySend, status); }
    case CompleteShutdownWrite(written) =>
      if io.stopping {
        StoppingIsNotRunning(s);
        ShutdownStepInv(s, CompleteShutdownSend(io, io.generation, written));
      }
    case _ =>
  }

  lemma StoppingIsNotRunning(s: System)
    requires Inv(s) && s.io.Some? && s.io.value.stopping
    ensures s.gui.life.phase != Running && s.io.value.emitted == []
  {}

  lemma DestroyRuntimeInv(s: System)
    requires Inv(s)
    ensures Inv(Next(s, DestroyRuntime))
  {
    hide Polling, Sending, Loading, InTransit;
  }

  /** Every action, by whatever thread, timer, observer or peer, keeps the invariant. */
  lemma NextInv(s: System, a: Action)
    requires Inv(s)
    ensures Inv(Next(s, a))
  {
    hide RunningInv, Absorb, AbsorbIo, NextIo, Deliver, Return, Attach, Shutdown, RequestRouteLoad,
         SendVisibilityChanged, UnbindCapabilityRuntime;
    match a
    case CallRequestRouteLoad(route, valid) =>
      if s.gui.life.phase == Running { RouteLoadInv(s, route, valid, 0); } else { StutterInv(s, 0); }
      RequestRouteLoadIs(s.gui, route, valid);
    case CallSendVisibility(visible) =>
      if s.gui.life.phase == Running { VisibilityInv(s, visible, 0); } else { StutterInv(s, 0); }
      SendVisibilityIs(s.gui, visible);
    case CallShutdown(hasReason) => ShutdownInv(s, hasReason);
    case CallAttach(authority, outcome) => AttachInv(s, authority, outcome);
    case CallUnbind(bound) => UnbindInv(s, bound);
    case DestroyRuntime => DestroyRuntimeInv(s);
    case CompleteDispatch(index, hasUse, result, valid) =>
      if index < |s.outstanding| { CompleteDispatchInv(s, index, hasUse, result, valid); }
    case DeliverToGui(valid, outcome) => if s.toGui != [] { DeliverInv(s, valid, outcome); }
    case ReturnFromObserver(navigation, hasUse, valid, loadValid) =>
      if s.frames != [] { ReturnInv(s, navigation, hasUse, valid, loadValid); }
    case PeerSends(received) => PeerSendsInv(s, received);
    case StartIo => if s.io.Some? && !s.io.value.started { StartIoInv(s); }
    case _ => if s.io.Some? && s.io.value.started { NextIoInv(s, a); }
  }

  lemma RequestRouteLoadIs(c: Gui, route: string, valid: bool)
    ensures RequestRouteLoad(c, route, valid) == if c.life.phase != Running then (c, false) else EnqueueRouteLoad(c, route, valid)
  {}

  lemma SendVisibilityIs(c: Gui, visible: bool)
    ensures SendVisibilityChanged(c, visible)
         == if c.life.phase != Running then (c, false) else EnqueueMessage(c, VisibilityChanged(visible), false)
  {}

  lemma ShutdownInv(s: System, hasReason: bool)
    requires Inv(s)
    ensures Inv(Absorb(s, Shutdown(s.gui, hasReason).0, []))
  {
    hide RunningInv, Absorb;
    if s.gui.life.phase != Running || !s.gui.life.hasIo || !hasReason { StutterInv(s, 0); }
    else { IdleInv(s, Shutdown(s.gui, hasReason).0); }
  }
}
