/**
 Values exchanged by the two halves of a worker session: the GUI-side controller
 and the agent that owns the pipe on the IO thread.
 */
module SessionTypes {
  import opened Common

  const MaxQueuedCommands: nat := 64
  const MaxMessagesPerTurn: nat := 8

  /** The tab authority a session is bound to; it is issued for one session generation. */
  datatype Authority = Authority(tabId: nat, sessionGeneration: nat)

  datatype Phase = Detached | Running | ShuttingDown | Failed

  datatype Error =
    | NoError
    | SessionFailure
    | InvalidCapabilityBinding
    | InvalidDispatchContext
    | CapabilityBindFailed
    | IoTransferFailed
    | ReattachFailed
    | ResponseQueueFailed
    | NavigationCallbackFailed
    | OutboundQueueFull
    | UnexpectedResponse
    | RouteLoadRejected
    | RouteLoadCompletionMismatch
    | CapabilityAuthorityMismatch
    | ResponseInvalid
    | StaleCommand
    | SendFailed
    | SendTimeout
    | ConcurrentSend
    | ShutdownSendFailed
    | ShutdownTimeout
    | ReceiveFailed
    | PeerShutdown
    | UnexpectedMessage

  datatype Message =
    | NavigationReply(requestId: string, accepted: bool)
    | RouteLoad(loadId: nat, route: string)
    | VisibilityChanged(visible: bool)
    | CapabilityReply(requestId: string, result: BrokerResult)

  datatype Command = Command(
    id: nat,
    message: Message,
    route: string,
    trackedRouteLoad: bool,
    resumePollingAfter: bool,
    capabilityRequestId: string,
    authority: Option<Authority>,
    hasUse: bool)

  datatype ResultCode = Busy | Denied | OtherCode
  datatype BrokerResult = BrokerResult(ok: bool, code: ResultCode)

  /** Calls queued for the IO thread. */
  datatype IoEvent =
    | SendMessage(generation: nat, command: Command)
    | ResumePolling(generation: nat)
    | BeginShutdown(generation: nat)
    | Abort(generation: nat)

  /** Events queued for the GUI thread. */
  datatype GuiEvent =
    | NavigationRequested(generation: nat, requestId: string, route: string)
    | RouteLoadResponse(generation: nat, loadId: nat, ok: bool, route: string)
    | CapabilityRequested(authority: Option<Authority>, generation: nat, requestId: string)
    | CommandFinished(generation: nat, commandId: nat, success: bool, published: bool, error: Error)
    | SessionFailed(generation: nat, error: Error)
    | ShutdownFinished(generation: nat)
    | PostedFailure(generation: nat, error: Error)
    | ThreadFinished(generation: nat)

  /** Signals the controller emits to its observers. */
  datatype Signal =
    | RouteLoadAcknowledged(route: string, generation: nat)
    | CapabilityResponseSent(requestId: string, generation: nat)
    | SessionDetached(generation: nat)
    | FailedWith(error: Error, generation: nat)

  /** A request handed to the capability runtime. */
  datatype Dispatch = Dispatch(generation: nat, requestId: string, authority: Authority)

  /**
   A controller function that has called out to an observer and will carry on
   when the observer returns.  Observers may call the controller again, or run a
   nested event loop, so several such activations can be open at once.
   */
  datatype Frame =
    | Navigating(generation: nat, requestId: string, route: string)
    | Acknowledging(generation: nat)
    | ObservingCapability(authority: Option<Authority>, generation: nat, requestId: string)
    | ReportingSent(generation: nat, resume: bool)

  datatype Navigation = Accepted | Refused | Threw

  /** How far startSession gets: into the running state, or which step refuses. */
  datatype StartOutcome = Started | RuntimeGone | NoDispatchContext | BindRefused | TransferRefused

  /** What one poll of the pipe yields. */
  datatype Received =
    | NavigationRequest(requestId: string, route: string)
    | Response(loadId: nat, ok: bool, route: string)
    | CapabilityRequest(requestId: string)
    | Heartbeat
    | PageMetadata
    | Informational
    | PeerShutdownMessage
    | Unexpected
    | PeerClosed
    | Broken

  datatype WriteStatus = Written | WriteCancelled | WriteFailed
}
