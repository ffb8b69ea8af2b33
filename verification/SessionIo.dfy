/**
 The session's agent on the IO thread: it polls the pipe, sends one command at a
 time under a deadline, and stops polling whenever the GUI owes the worker an answer.
 */
module SessionIo {
  import opened Common
  import opened SessionTypes

  /** `incoming` is what the pipe will yield; `emitted` is what has been queued for the GUI thread. */
  datatype Io = Io(
    generation: nat,
    authority: Option<Authority>,
    started: bool,
    pollTimer: bool,
    sendDeadline: bool,
    shutdownDeadline: bool,
    pendingCommand: nat,
    awaitingGui: bool,
    stopping: bool,
    terminal: bool,
    incoming: seq<Received>,
    emitted: seq<GuiEvent>)

  function NewIo(generation: nat, authority: Option<Authority>): Io {
    Io(generation, authority, false, false, false, false, 0, false, false, false, [], [])
  }

  function Emit(io: Io, e: GuiEvent): Io {
    io.(emitted := io.emitted + [e])
  }

  /** Closing the session: every timer stops and no send is pending any more. */
  function Close(io: Io): Io {
    io.(terminal := true, pollTimer := false, sendDeadline := false, shutdownDeadline := false, pendingCommand := 0)
  }

  function Fail(io: Io, error: Error): Io {
    if io.terminal then io
    else Emit(Close(io), SessionFailed(io.generation, if error == NoError then SessionFailure else error))
  }

  function FinishShutdown(io: Io): Io {
    if io.terminal || !io.stopping then io else Emit(Close(io), ShutdownFinished(io.generation))
  }

  /** Polling stops here until the GUI has answered `e`. */
  function Await(io: Io, e: GuiEvent): Io {
    Emit(io.(awaitingGui := true, pollTimer := false), e)
  }

  /** One received message; the flag says whether this turn goes on. */
  function Receive(io: Io, received: Received): (Io, bool) {
    match received
    case NavigationRequest(requestId, route) => (Await(io, NavigationRequested(io.generation, requestId, route)), false)
    case Response(loadId, ok, route) => (Await(io, RouteLoadResponse(io.generation, loadId, ok, route)), false)
    case CapabilityRequest(requestId) => (Emit(io, CapabilityRequested(io.authority, io.generation, requestId)), true)
    case Heartbeat => (io, true)
    case PageMetadata => (io, true)
    case Informational => (io, true)
    case PeerShutdownMessage => (if io.stopping then FinishShutdown(io) else Fail(io, PeerShutdown), false)
    case Unexpected => (Fail(io, UnexpectedMessage), false)
    case PeerClosed => (if io.stopping then FinishShutdown(io) else Fail(io, ReceiveFailed), false)
    case Broken => (Fail(io, ReceiveFailed), false)
  }

  /** At most `budget` messages are taken in one turn. */
  function PollTurn(io: Io, budget: nat): Io
    decreases budget
  {
    if budget == 0 || io.incoming == [] then io
    else
      var (next, more) := Receive(io.(incoming := io.incoming[1..]), io.incoming[0]);
      if more then PollTurn(next, budget - 1) else next
  }

  function PollSession(io: Io): Io {
    if io.terminal || io.awaitingGui then io else PollTurn(io, MaxMessagesPerTurn)
  }

  function Start(io: Io): Io {
    if io.terminal then io.(started := true)
    else PollSession(io.(started := true, pollTimer := true))
  }

  function ResumeIo(io: Io, generation: nat): Io {
    if generation != io.generation || io.terminal || io.stopping then io
    else PollSession(io.(awaitingGui := false, pollTimer := true))
  }

  function ArmDeadline(io: Io, commandId: nat): Io {
    if io.terminal then io
    else if io.pendingCommand != 0 then Fail(io, ConcurrentSend)
    else io.(pendingCommand := commandId, sendDeadline := true)
  }

  predicate AuthorityMismatch(io: Io, command: Command) {
    && (command.authority.Some? || command.hasUse)
    && (command.authority.None? || !command.hasUse || io.authority != command.authority)
  }

  /** `accepted` says whether the pipe takes the write. */
  function SendCommand(io: Io, generation: nat, command: Command, accepted: bool): Io {
    if generation != io.generation || io.terminal || io.stopping then
      Emit(io, CommandFinished(generation, command.id, false, false, StaleCommand))
    else if AuthorityMismatch(io, command) then
      Fail(Emit(io, CommandFinished(generation, command.id, false, false, CapabilityAuthorityMismatch)),
           CapabilityAuthorityMismatch)
    else if !accepted then
      Fail(Emit(io, CommandFinished(generation, command.id, false, false, SendFailed)), SendFailed)
    else ArmDeadline(io, command.id)
  }

  /** The pipe reports on an accepted write, possibly long after its deadline. */
  function CompleteSend(io: Io, generation: nat, commandId: nat, capabilitySend: bool, status: WriteStatus): Io {
    if io.pendingCommand != commandId then io
    else
      var done := io.(pendingCommand := 0, sendDeadline := false);
      if generation != io.generation || io.terminal then done
      else if status == Written then Emit(done, CommandFinished(generation, commandId, true, true, NoError))
      else if status == WriteCancelled && capabilitySend then
        Emit(done, CommandFinished(generation, commandId, true, false, NoError))
      else Fail(Emit(done, CommandFinished(generation, commandId, false, false, SendFailed)), SendFailed)
  }

  function SendDeadlineFires(io: Io): Io {
    if !io.sendDeadline then io
    else
      var fired := io.(sendDeadline := false);
      if fired.terminal || fired.pendingCommand == 0 then fired
      else Fail(fired.(pendingCommand := 0), SendTimeout)
  }

  function ShutdownDeadlineFires(io: Io): Io {
    if !io.shutdownDeadline then io
    else
      var fired := io.(shutdownDeadline := false);
      if fired.terminal || !fired.stopping then fired else Fail(fired, ShutdownTimeout)
  }

  function BeginIoShutdown(io: Io, generation: nat, accepted: bool): Io {
    if generation != io.generation || io.terminal || io.stopping then io
    else
      var stopping := io.(stopping := true, awaitingGui := false);
      if !accepted then Fail(stopping, ShutdownSendFailed)
      else stopping.(shutdownDeadline := true, pollTimer := true)
  }

  /** The pipe reports on the shutdown message. */
  function CompleteShutdownSend(io: Io, generation: nat, written: bool): Io {
    if generation != io.generation || io.terminal || written then io else Fail(io, ShutdownSendFailed)
  }

  function AbortIo(io: Io, generation: nat): Io {
    if generation != io.generation then io
    else Emit(if io.terminal then io else Close(io), ThreadFinished(io.generation))
  }
}
