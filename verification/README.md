# Q-Browser Host: a verified model

Q-Browser's Host runs untrusted application workers in sandboxed processes and shows
them in tabs. Most of it is asynchronous protocol code: generations, queues, one-shot
resources, observers that call back. This project models its hard parts in Dafny and
proves what they keep over every run and every interleaving.

How it is laid out: each part has a module of pure functions that give the effect of
every operation on the state, a class that updates its fields in place and is proved to
have exactly those effects, and modules of lemmas about runs of those functions. Where
the outside world decides (a write fails, a thread does not start, a token is revoked, a
timer fires), the decision is a parameter, and the theorems hold for all of them.

| part | modules |
|---|---|
| worker session: GUI-side controller, IO agent, the queues between them | SessionTypes, SessionController, SessionIo, WorkerSession (classes), SessionSystem, SessionInvariant, SessionIoInvariant, SessionTheorems, SessionShutdown, SessionTranscript, SessionEnding, SessionSlots, SessionAgent |
| launching and retiring workers | Launcher, LauncherSystem, LauncherInvariant, LauncherTheorems, LauncherRequests, LauncherOutcomes, LaunchCleanup, RetirementManager, RetirementSystem, RetirementTheorems |
| tabs, their view and their persistence | TabModel, TabTheorems, TabHistory, TabEffects, BrowserTabs (class), BrowserChrome, Titles, Utf16, Utf8, Json, SessionStore, SessionRestore, BrowserSessionStore |
| gesture evidence | GestureRouter, GestureTrust, HostGesture (class) |
| supporting algorithms | OwnedPaths, RuntimeConfig, ProcessTree |

What the proofs found in the code:

- A session that is shutting down can stall: if a navigation request or a response is
  read after the agent was told to stop, it waits for an answer that it will refuse, and
  the shutdown can end only by its deadline, a failure or an abort
  (`SessionShutdown.ShutdownCanStall`, `StalledShutdownNeverFinishes`). A poll of a
  stopping agent stalls it if and only if such a message comes first within the turn
  (`StallsExactlyWhen`).
- Overlapping calls of `retryFatal` can put two threads on one record
  (`RetirementTheorems.OverlappingRetriesClash`). Runs are free of that if and only if
  the calls do not overlap (`SafeExactlyIfSerialised`).
- A context whose retirement was handled can become the current one: the attach callback
  cancels the launcher, the retirement is handled before the callback returns, and it
  returns successfully (`LauncherTheorems.RetiredContextBecomesCurrent`). The exact
  condition is that the context has left the launches in flight when an uncancelled attach
  callback returns successfully; no other step does it
  (`RetiredBecomesCurrentExactlyWhen`, `AttachedAliveExactlyWhen`).
- A launch that waits can be forgotten: its starter is the end of the notification that the
  worker before it has exited, and that end does nothing if the serial has moved on. A call
  for another launch from within the notification moves it on, and if there is then no temp
  tree, nothing is started (`LauncherRequests.WaitingLaunchCanBeStranded`). No other kind of
  step can do that (`WaitingLaunchIsStrandedExactlyWhen`).
- A session that waits for the end of the one before it loses its capability binding if that
  one fails meanwhile: failing drops the waiting binding but not the waiting session, which
  then starts unbound (`SessionEnding.WaitingSessionCanLoseItsBinding`). That is the only way
  (`WaitingBindingIsLostExactlyWhen`).
- An exception from the navigation callback of an earlier session fails the session that runs
  when it arrives: this branch alone does not look at the generation
  (`SessionEnding.SessionEndsExactlyAs`).
- Some guards can never act: the second send and the inconsistent end of a burst of
  route loads (`SessionTheorems.ImpossibleFailures`), the check of a configuration's state
  directory against the runtime roots (`RuntimeConfig.StateNeverOverlapsRuntime`) and, where
  the key's directory is the one that holds the key, the check against that directory
  (`StateNeverOverlapsKey`). In the acceptance of a navigation the branch for an empty queue is dead too: two commands have just been queued
  and at most one was sent (`WorkerSession.HostWorkerSessionController.FinishNavigationRequest`).

## Model

| member | source | states |
|---|---|---|
| SessionTheorems.NoLostWakeUp | apps/host/HostWorkerSessionIo.cpp:265-339 | In every interleaving, while the session runs and its pipe is open, the agent waits for the GUI exactly when exactly one resume token exists (awaited event, controller activation, resuming command or queued resume) and otherwise there is none; a started agent polls exactly when it does not wait |
| SessionTheorems.SendsAreSingleAndOrdered | apps/host/HostWorkerSessionController.cpp:663-722 | On every run at most 64 commands are queued or in flight, the agent receives commands with consecutive ids in the order they were queued, and the one in flight is in exactly one place |
| SessionTheorems.CapabilitySingleFlight | apps/host/HostWorkerSessionController.cpp:467-624 | At most one command or outstanding dispatch can complete the request in the capability slot; queued or in flight, it carries that request's id and the session's own authority |
| SessionTheorems.ImpossibleFailures | apps/host/HostWorkerSessionIo.cpp:384-396 | On no run, with deadlines, late pipe reports and re-attachment, does a second send meet one in flight or a burst of route loads end inconsistently |
| SessionTheorems.AcknowledgementIsTruthful | apps/host/HostWorkerSessionController.cpp:421-465 | routeLoadAcknowledged is announced only when every load requested in the session has been answered and none is pending, and it names the newest one |
| SessionTranscript.WorkerIsToldExactly | apps/host/HostWorkerSessionController.cpp:369-722 | On every run, the messages delivered to the agent, on their way and queued are exactly those that the calls, requests, verdicts and results of the session so far call for, in their order; the one in flight is the last that left the queue |
| SessionTranscript.NavigationIsAnsweredAsDecided | apps/host/HostWorkerSessionController.cpp:369-419 | Every navigation reply queued, in flight or delivered answers a request of this session; it accepts exactly if the request's callback did, and then the load of that request's route stands directly behind it |
| SessionTranscript.EveryRequestIsAnsweredOnce | apps/host/HostWorkerSessionController.cpp:369-419 | Each navigation request taken up was answered once, or its callback has not returned |
| SessionTranscript.CallsReportTruthfully | apps/host/HostWorkerSessionController.cpp:537-624 | Route load, visibility and completion calls return true exactly if the worker will be told |
| SessionEnding.SessionEndsExactlyAs | apps/host/HostWorkerSessionController.cpp:290-321 | Exactly which steps end a running session, in every reachable state, and as what: its error announced once and the agent aborted, shut down, or replaced; nothing of it is left. In all other steps it goes on and signals exactly a sent response or a finished burst |
| SessionEnding.StartsExactlyWhen | apps/host/HostWorkerSessionController.cpp:147-288 | A session starts exactly with a fitting binding and a willing outside, as the next generation and with nothing of an earlier one |
| SessionEnding.AttachesExactlyWhen | apps/host/HostWorkerSessionController.cpp:97-139 | It starts at once exactly if no agent is left, and otherwise waits while that agent is aborted once |
| SessionEnding.ThreadEndsExactly | apps/host/HostWorkerSessionController.cpp:791-835 | When the agent's thread is over the waiting session starts or fails, and without one the controller rests as it was to |
| SessionEnding.ShutdownFinishesExactly | apps/host/HostWorkerSessionController.cpp:272-282 | A finished shutdown stops the agent of a session that shuts down, once |
| SessionEnding.FailureArrivesExactly | apps/host/HostWorkerSessionController.cpp:733-750 | A failure ends a session that runs or shuts down, announced once, and changes nothing in any other |
| SessionEnding.WaitingBindingIsLostExactlyWhen | apps/host/HostWorkerSessionController.cpp:733-750 | A session that waits for the end of another keeps its capability binding exactly unless the other fails meanwhile; then it still waits, without it |
| SessionEnding.WaitingSessionCanLoseItsBinding | apps/host/HostWorkerSessionController.cpp:815-835 | A run from the start after which a session attached with a binding runs unbound |
| SessionSlots.SlotIsExactly | apps/host/HostWorkerSessionController.cpp:467-661 | The capability slot is taken exactly when a request meets it free, freed exactly when the command completing its request is reported finished, and a request reaches the runtime exactly when it takes the slot of a bound session |
| SessionAgent.AgentTellsExactly | apps/host/HostWorkerSessionIo.cpp:69-396 | What every step of the agent tells the controller in every reachable state: requests and answers as read, the fate of each command, the failure met; it closes only by telling |
| SessionAgent.TurnReadsExactly | apps/host/HostWorkerSessionIo.cpp:265-339 | A turn reads to the first message that needs an answer or ends the session, at most eight, hands on what they say in order, and then waits, closes or polls on |
| SessionAgent.EveryWaitIsBounded | apps/host/HostWorkerSessionIo.cpp:384-396 | In every reachable state an open agent has a deadline for the command at the pipe, and one for its shutdown exactly while it is stopping |
| SessionInvariant.BurstEnds | apps/host/HostWorkerSessionController.cpp:440-448 | When the last answer of a burst arrives, in whatever order, the newest load is acknowledged and known: the mismatch branch is not taken |
| SessionInvariant.DeliverInv | apps/host/HostWorkerSessionController.cpp:369-465 | Handling any event queued for the GUI keeps the invariant of the composed session |
| SessionInvariant.ReturnInv | apps/host/HostWorkerSessionController.cpp:376-418 | So does the continuation of any controller function after its observers, whatever they did meanwhile |
| SessionIoInvariant.NextInv | apps/host/HostWorkerSessionIo.cpp:69-256 | So does every step of calls, observers, agent, timers, pipe reports and the worker |
| SessionIoInvariant.CompleteSendInv | apps/host/HostWorkerSessionIo.cpp:134-160 | A pipe report is believed only for the pending command, however late or repeated it is |
| SessionShutdown.SlotIsFreedByItsAnswer | apps/host/HostWorkerSessionController.cpp:626-661 | While a session runs, an occupied capability slot is given up only when the command that answers its own request is reported finished |
| SessionShutdown.CompetingRequestIsRefused | apps/host/HostWorkerSessionController.cpp:486-513 | A request that finds the slot taken is answered capability.busy, which completes nothing and reaches no runtime, or the session fails |
| SessionShutdown.StallsExactlyWhen | apps/host/HostWorkerSessionIo.cpp:265-304 | In any reachable state of the composed session, a poll of a stopping agent stalls its session exactly when a navigation request or a response comes first within the turn's eight messages |
| SessionShutdown.StalledShutdownNeverFinishes | apps/host/HostWorkerSessionIo.cpp:175-185 | From then on shutdownFinished is never emitted for that session, whatever happens |
| SessionShutdown.ShutdownCanStall | apps/host/HostWorkerSessionIo.cpp:187-233 | A run from the initial state that stalls |
| WorkerSession.HostWorkerSessionIo.PollSession | apps/host/HostWorkerSessionIo.cpp:265-339 | The polling loop has exactly the effect of a turn of at most eight messages that stops at the first one the GUI must answer |
| WorkerSession.HostWorkerSessionIo.SendMessage | apps/host/HostWorkerSessionIo.cpp:78-173 | A send is refused as stale, refused for its authority, fails at the pipe, or arms the deadline |
| WorkerSession.HostWorkerSessionIo.Start | apps/host/HostWorkerSessionIo.cpp:69-76 | A started agent polls at once, unless it was closed before |
| WorkerSession.HostWorkerSessionIo.Fail | apps/host/HostWorkerSessionIo.cpp:356-375 | The first failure closes the agent and is reported once; later ones do nothing |
| WorkerSession.HostWorkerSessionIo.FinishShutdown | apps/host/HostWorkerSessionIo.cpp:341-354 | Only a stopping agent that is still open finishes its shutdown |
| WorkerSession.HostWorkerSessionIo.ResumePolling | apps/host/HostWorkerSessionIo.cpp:175-185 | Polling resumes for the own generation unless the agent is closed or stopping |
| WorkerSession.HostWorkerSessionIo.ArmCommandDeadline | apps/host/HostWorkerSessionIo.cpp:384-396 | A second pending command is a failure, a first one gets its deadline |
| WorkerSession.HostWorkerSessionIo.WriteCompleted | apps/host/HostWorkerSessionIo.cpp:134-160 | What a pipe report does: nothing unless it is about the pending command |
| WorkerSession.HostWorkerSessionIo.SendDeadlineTimeout | apps/host/HostWorkerSessionIo.cpp:45-52 | An expired send fails the session and is no longer pending |
| WorkerSession.HostWorkerSessionIo.ShutdownDeadlineTimeout | apps/host/HostWorkerSessionIo.cpp:54-60 | An expired shutdown fails the session |
| WorkerSession.HostWorkerSessionIo.BeginShutdown | apps/host/HostWorkerSessionIo.cpp:187-233 | The agent stops waiting, sends the shutdown message and goes on polling under a deadline |
| WorkerSession.HostWorkerSessionIo.AbortSession | apps/host/HostWorkerSessionIo.cpp:235-256 | The agent closes, and its thread ends |
| WorkerSession.HostWorkerSessionController.StartSession | apps/host/HostWorkerSessionController.cpp:147-288 | The whole new state for each way a session can start or fail to |
| WorkerSession.HostWorkerSessionController.AttachSession | apps/host/HostWorkerSessionController.cpp:97-139 | A new session is started at once or waits for the end of the old one, which is cleared |
| WorkerSession.HostWorkerSessionController.RequestIoStop | apps/host/HostWorkerSessionController.cpp:773-789 | The agent is told to stop once |
| WorkerSession.HostWorkerSessionController.PumpOutbound | apps/host/HostWorkerSessionController.cpp:707-722 | The head of the queue goes out only if nothing is in flight |
| WorkerSession.HostWorkerSessionController.EnqueueMessage | apps/host/HostWorkerSessionController.cpp:663-675 | A message is queued under the next id unless 64 are queued or in flight |
| WorkerSession.HostWorkerSessionController.EnqueueRouteLoad | apps/host/HostWorkerSessionController.cpp:677-697 | A route load is tracked as the newest and queued, or refused |
| WorkerSession.HostWorkerSessionController.Shutdown | apps/host/HostWorkerSessionController.cpp:303-321 | Only a running session is shut down; everything of it is dropped |
| WorkerSession.HostWorkerSessionController.UnbindCapabilityRuntime | apps/host/HostWorkerSessionController.cpp:752-760 | Only the bound authority is unbound |
| WorkerSession.HostWorkerSessionController.HandleNavigationRequest | apps/host/HostWorkerSessionController.cpp:369-391 | A request is ignored, refused as busy, or handed to the callback |
| WorkerSession.HostWorkerSessionController.FinishNavigationRequest | apps/host/HostWorkerSessionController.cpp:391-419 | From the callback's return: the reply and the route load are queued and the load resumes polling, or the session fails closed, also when the reply was queued and the load's message is invalid |
| WorkerSession.HostWorkerSessionController.HandleRouteLoadResponse | apps/host/HostWorkerSessionController.cpp:421-465 | The whole new state for each answer to a route load |
| WorkerSession.HostWorkerSessionController.FinishCapabilityRequest | apps/host/HostWorkerSessionController.cpp:476-535 | From the observers' return: the request is refused as busy, denied, fails the session, or takes the slot and is dispatched |
| WorkerSession.HostWorkerSessionController.SubmitCapabilityCompletion | apps/host/HostWorkerSessionController.cpp:537-547 | A completion without a use is refused |
| WorkerSession.HostWorkerSessionController.QueueCapabilityResponse | apps/host/HostWorkerSessionController.cpp:549-624 | When a capability response is queued, refused, or fails the session later |
| WorkerSession.HostWorkerSessionController.HandleCommandFinished | apps/host/HostWorkerSessionController.cpp:626-661 | The in-flight command is released, its slot freed, the next sent and polling resumed, or the session fails |
| WorkerSession.HostWorkerSessionController.FailClosed | apps/host/HostWorkerSessionController.cpp:733-750 | Failing drops everything of the session, stops the agent and announces the failure once |
| WorkerSession.HostWorkerSessionController.FinishSentReport | apps/host/HostWorkerSessionController.cpp:646-653 | From the observers' return: the next command is sent and polling resumed, if the session still runs |
| WorkerSession.HostWorkerSessionController.HandleShutdownFinished | apps/host/HostWorkerSessionController.cpp:272-282 | A finished shutdown stops the agent |
| WorkerSession.HostWorkerSessionController.HandleIoThreadFinished | apps/host/HostWorkerSessionController.cpp:791-835 | The end of the thread detaches the session or starts the one that waited |
| LauncherTheorems.ContextsAreConserved | apps/host/InstalledPackageWorkerLauncher.cpp:588-633 | Under any race at most one context is in flight or current, every other has had its retirement submitted, and each is submitted at most once |
| LauncherTheorems.EveryContextIsLookedAfter | apps/host/InstalledPackageWorkerLauncher.cpp:620-633 | Until it is submitted, a context in flight has a live holder of its payload, and a current one has an observer that watches or will be released |
| LauncherTheorems.OnlyTheNewestAttaches | apps/host/InstalledPackageWorkerLauncher.cpp:1216-1402 | An attachment not cancelled belongs to the newest context, nothing is current, and every other attachment in progress is cancelled |
| LauncherTheorems.CurrentIsAliveWhileAccepting | apps/host/InstalledPackageWorkerLauncher.cpp:1462-1520 | While launches are accepted the current context is not one whose retirement was handled |
| LauncherTheorems.RetiredBecomesCurrentExactlyWhen | apps/host/InstalledPackageWorkerLauncher.cpp:1374-1386 | A step of any run makes a retired context current if and only if it is the successful return of an uncancelled attach callback whose context is no longer in flight |
| LauncherTheorems.AttachedAliveExactlyWhen | apps/host/InstalledPackageWorkerLauncher.cpp:1346-1386 | When such a callback returns, its context becomes current in any case, and it is a retired one exactly if it has left the launches in flight |
| LauncherTheorems.RetiredContextBecomesCurrent | apps/host/InstalledPackageWorkerLauncher.cpp:1374-1386 | A run from the start after which the current context is a retired one |
| LauncherTheorems.RevivesFromAttach | apps/host/InstalledPackageWorkerLauncher.cpp:1625-1647 | Its second half: cancellation within the attach callback, the handled retirement, the callback's return |
| LauncherTheorems.ReachesAttach | apps/host/InstalledPackageWorkerLauncher.cpp:675-1330 | Its first half: one launch up to its attach callback |
| LauncherTheorems.CancelIsFinal | apps/host/InstalledPackageWorkerLauncher.cpp:1625-1647 | After cancel no run ever creates another context |
| LauncherRequests.CancelReachesExactly | apps/host/InstalledPackageWorkerLauncher.cpp:1129-1168 | Cancelling a request cancels and submits its launches in flight, marks a current one, drops a waiting one, and changes nothing else |
| LauncherRequests.CancelledLaunchNeverRuns | apps/host/InstalledPackageWorkerLauncher.cpp:1152-1166 | Whatever happens afterwards, a launch cancelled in flight never becomes current |
| LauncherRequests.WhoWaits | apps/host/InstalledPackageWorkerLauncher.cpp:706-712 | Which launch waits after any step: the newest deferred, until it is started, cancelled or given up |
| LauncherRequests.WaitingLaunchStarts | apps/host/InstalledPackageWorkerLauncher.cpp:1591-1602 | The end of a retirement starts the launch that waits, in a new context of its own request |
| LauncherRequests.LaunchStarts | apps/host/InstalledPackageWorkerLauncher.cpp:713-1065 | What a request finds when the launcher is idle: a new context in flight with its thread, one that is retired at once, or nothing |
| LauncherRequests.WaitingLaunchIsStrandedExactlyWhen | apps/host/InstalledPackageWorkerLauncher.cpp:1532-1539 | On every run, a launch that waits loses whoever would start it exactly in a call that finds the launcher idle, moves the serial on and has no temp tree, with no retirement being published |
| LauncherRequests.WaitingLaunchCanBeStranded | apps/host/InstalledPackageWorkerLauncher.cpp:713-718 | A run from the start that does so |
| LauncherOutcomes.AdmissionIsAskedExactlyWhen | apps/host/InstalledPackageWorkerLauncher.cpp:1170-1214 | Admission is asked exactly for the newest launch, not cancelled, while launches are accepted; any other is retired |
| LauncherOutcomes.AttachIsCalledExactlyWhen | apps/host/InstalledPackageWorkerLauncher.cpp:1216-1330 | The attach callback is called exactly for the newest launch that is admitted, unresolved and not cancelled and whose worker is observed and published; otherwise an unresolved launch is retired |
| LauncherOutcomes.AttachEndsExactly | apps/host/InstalledPackageWorkerLauncher.cpp:1346-1386 | A successful callback for a launch not cancelled makes it current; any other ends in its retirement |
| LauncherOutcomes.TimeoutRetires | apps/host/InstalledPackageWorkerLauncher.cpp:1216-1240 | A timeout attaches nothing and retires a launch not resolved before |
| LauncherOutcomes.ObserverRetires | apps/host/InstalledPackageWorkerLauncher.cpp:1404-1460 | A released observer retires its worker and remembers if it could not observe it |
| LauncherOutcomes.RetirementIsHandledExactly | apps/host/InstalledPackageWorkerLauncher.cpp:1462-1535 | What a retirement result changes and who goes on: fatal and closing exactly if cleanup failed, closing too if a worker went unobserved, a notification exactly for a worker that had been attached |
| LauncherOutcomes.AcceptanceEndsExactlyWhen | apps/host/InstalledPackageWorkerLauncher.cpp:1625-1630 | Launches stop being accepted exactly with cancel or such a result |
| LauncherInvariant.CompleteInv | apps/host/InstalledPackageWorkerLauncher.cpp:1216-1330 | Completing a launch keeps the invariant on every path, and calls the attach callback only for the newest, unsubmitted, in-flight context |
| LauncherInvariant.NotAttachedInv | apps/host/InstalledPackageWorkerLauncher.cpp:1356-1373 | A refused or cancelled attachment submits the context, lets its observer go and drops the payload without losing either |
| LauncherInvariant.HandleInv | apps/host/InstalledPackageWorkerLauncher.cpp:1462-1602 | Handling a retirement result keeps the invariant |
| LauncherInvariant.NextInv | apps/host/InstalledPackageWorkerLauncher.cpp:675-1647 | Every step of callers, threads, events, timers and closures keeps the launcher's invariant |
| Launcher.InstalledPackageWorkerLauncher.Launch | apps/host/InstalledPackageWorkerLauncher.cpp:675-1065 | Which requests are refused, deferred or launched, and the whole new state |
| Launcher.InstalledPackageWorkerLauncher.SubmitRetirement | apps/host/InstalledPackageWorkerLauncher.cpp:588-608 | Only the first submission goes to the manager; one it does not take fails at once |
| Launcher.InstalledPackageWorkerLauncher.PayloadArrives | apps/host/InstalledPackageWorkerLauncher.cpp:1170-1214 | Admission is asked for the newest launch only, while launches are accepted and it is not cancelled |
| Launcher.InstalledPackageWorkerLauncher.CancelAll | apps/host/InstalledPackageWorkerLauncher.cpp:1625-1643 | No launch is accepted any more; what is current and in flight is remembered across the stop callback |
| Launcher.InstalledPackageWorkerLauncher.FinishCancel | apps/host/InstalledPackageWorkerLauncher.cpp:1643-1647 | All that was remembered is submitted |
| Launcher.InstalledPackageWorkerLauncher.StartPending | apps/host/InstalledPackageWorkerLauncher.cpp:1591-1602 | A launch that had to wait starts when nothing is in flight or current |
| Launcher.InstalledPackageWorkerLauncher.Complete | apps/host/InstalledPackageWorkerLauncher.cpp:1216-1330 | The whole new state for each result of admission and each step that fails |
| Launcher.InstalledPackageWorkerLauncher.FinishAttach | apps/host/InstalledPackageWorkerLauncher.cpp:1356-1386 | The context becomes current, or is retired |
| Launcher.InstalledPackageWorkerLauncher.CancelRequest | apps/host/InstalledPackageWorkerLauncher.cpp:1129-1168 | The pending, current and in-flight launches of one request are cancelled, no others |
| Launcher.InstalledPackageWorkerLauncher.RetirementArrives | apps/host/InstalledPackageWorkerLauncher.cpp:1462-1535 | What a retirement result does to the launcher's fields |
| LaunchCleanup.LaunchRetirementContext.AttemptRetirement | apps/host/InstalledPackageWorkerLauncher.cpp:468-586 | One cleanup attempt makes exactly the calls due, in order, and keeps exactly what is left |
| LaunchCleanup.LaunchRetirementContext.CloseResources | apps/host/InstalledPackageWorkerLauncher.cpp:511-570 | All closes that are safe are tried, whatever fails |
| LaunchCleanup.PackageClosesAfterExecution | apps/host/InstalledPackageWorkerLauncher.cpp:535-570 | Package guard and grants are closed only after the worker's execution was closed, if there is a worker |
| LaunchCleanup.TempGoesLast | apps/host/InstalledPackageWorkerLauncher.cpp:571-574 | The temp tree is deleted last and only if every other close of the attempt succeeded |
| LaunchCleanup.OwnershipFollowsTheCalls | apps/host/InstalledPackageWorkerLauncher.cpp:511-584 | Each resource is given up exactly when its own close succeeded; worker and temp tree only with the whole attempt |
| LaunchCleanup.SuccessMeansNothingIsLeft | apps/host/InstalledPackageWorkerLauncher.cpp:575-584 | An attempt succeeds exactly when the launch thread is over and all its calls succeed, and then nothing is owned |
| LaunchCleanup.ClosedOnceIsClosedForGood | apps/host/InstalledPackageWorkerLauncher.cpp:523-560 | Over any pattern of failures, what was closed successfully is not closed again |
| LaunchCleanup.CleanAttemptEndsIt | apps/host/InstalledPackageWorkerLauncher.cpp:575-584 | Whatever failed before, an attempt ends the cleanup exactly if the launch thread is over and none of its calls fails; then nothing is owned and later attempts call nothing |
| LaunchCleanup.NothingIsLostOrForgotten | apps/host/InstalledPackageWorkerLauncher.cpp:523-560 | After any number of attempts what is still owned is exactly what was owned and never closed |
| RetirementManager.WorkerRetirementManager.RunAttempts | apps/host/WorkerRetirementManager.cpp:115-145 | A thread stops at the first success or after seven attempts, having slept 25 times (two to the attempts before, minus one) milliseconds |
| RetirementManager.WorkerRetirementManager.AcceptRecord | apps/host/WorkerRetirementManager.cpp:63-77 | A record gets the next ticket, none when shutting down |
| RetirementManager.WorkerRetirementManager.ClaimRecord | apps/host/WorkerRetirementManager.cpp:81-87 | A record not being worked on is claimed and its thread counted |
| RetirementManager.WorkerRetirementManager.StartFailed | apps/host/WorkerRetirementManager.cpp:100-113 | Without a thread the record is fatal and the count goes back |
| RetirementManager.WorkerRetirementManager.SettleRecord | apps/host/WorkerRetirementManager.cpp:138-148 | Success takes the record out of the table, failure makes it fatal |
| RetirementManager.WorkerRetirementManager.CheckIdle | apps/host/WorkerRetirementManager.cpp:191-198 | Idle means no record and no thread |
| RetirementManager.WorkerRetirementManager.CollectFatal | apps/host/WorkerRetirementManager.cpp:157-167 | The fatal records, each once |
| RetirementTheorems.EveryRecordHasOneOwner | apps/host/WorkerRetirementManager.cpp:63-155 | In every interleaving with retries that do not overlap, activeThreads counts the live threads, and a record not fatal has exactly one owner, any other at most one |
| RetirementTheorems.AttemptsDoNotOverlap | apps/host/WorkerRetirementManager.cpp:115-136 | No two threads attempt one record at once |
| RetirementTheorems.RetryIsBounded | apps/host/WorkerRetirementManager.cpp:13-20 | At most seven attempts and 1575 ms of back-off in each thread |
| RetirementTheorems.SuccessIsReportedOnce | apps/host/WorkerRetirementManager.cpp:138-155 | Success is reported at most once for a ticket, and then the record has left the table and has no owner |
| RetirementTheorems.CheckedShutdownIsFinal | apps/host/WorkerRetirementManager.cpp:191-207 | Once shutdownChecked has seen the manager idle it stays idle for ever |
| RetirementTheorems.ClaimIsExclusive | apps/host/WorkerRetirementManager.cpp:81-87 | Of two agents about to start one record the second to claim it at once is sent on without it |
| RetirementTheorems.EveryClaimIsReportedOnce | apps/host/WorkerRetirementManager.cpp:100-155 | On every run each claim of a record is reported on once, or still being worked on |
| RetirementTheorems.ShutdownAdmitsNothing | apps/host/WorkerRetirementManager.cpp:157-207 | On every run, once shutdown has begun no record is accepted and no call brings in work |
| RetirementTheorems.SafeExactlyIfSerialised | apps/host/WorkerRetirementManager.cpp:157-170 | No run lets two threads attempt one record at once if and only if calls of retryFatal do not overlap |
| RetirementTheorems.OverlappingRetriesClash | apps/host/WorkerRetirementManager.cpp:81-87 | A run from the start with overlapping calls, after which two threads attempt one record |
| RetirementTheorems.BothCanCollect | apps/host/WorkerRetirementManager.cpp:157-167 | Its first half: two callers of retryFatal both collect one record |
| RetirementTheorems.CollectorsClash | apps/host/WorkerRetirementManager.cpp:81-113 | Its second half: both start a thread for it |
| TabTheorems.SignalsTellEverything | apps/host/BrowserTabModel.cpp:145-267 | After any calls an observer that started with nothing and followed only the signals for inserted, removed, moved and activated tabs has the model's ids in order and its active index, and every signal fitted what it showed |
| TabTheorems.IdentityAndSelection | apps/host/BrowserTabModel.cpp:510-523 | After any calls the ids of open and recently closed tabs are distinct, and a tab is active exactly if there is one |
| TabTheorems.MoveKeeps | apps/host/BrowserTabModel.cpp:194-212 | Moving a tab keeps the ids, the active tab and the validity of the model, and is told |
| TabTheorems.BusyRefuses | apps/host/BrowserTabModel.cpp:145-147 | While a mutator runs every other leaves the model as it is |
| TabTheorems.CreateKeeps | apps/host/BrowserTabModel.cpp:145-179 | Creating a tab under an unused id keeps the model valid and is told |
| TabTheorems.ReopenKeeps | apps/host/BrowserTabModel.cpp:246-267 | So does reopening one |
| TabTheorems.ActivateKeeps | apps/host/BrowserTabModel.cpp:181-192 | So does activating one |
| TabTheorems.NavigateKeeps | apps/host/BrowserTabModel.cpp:274-311 | Navigating changes no id and no selection |
| TabTheorems.StepKeeps | apps/host/BrowserTabModel.cpp:328-366 | Nor does going back or forward |
| TabTheorems.StateSettersKeep | apps/host/BrowserTabModel.cpp:383-422 | Setting lifecycle, load state or visual state changes no id and no selection, and any progress is shown as a percentage |
| TabTheorems.CloseKeeps | apps/host/BrowserTabModel.cpp:214-244 | Closing a tab keeps the active one unless it is closed, and puts the closed snapshot on top of those that can be reopened |
| TabTheorems.ReplaceKeeps | apps/host/BrowserTabModel.cpp:424-503 | A session is replaced exactly if it can be restored, and the removals and insertions tell it |
| TabTheorems.ReopenUndoesClose | apps/host/BrowserTabModel.cpp:214-267 | Closing any tabs and reopening some brings back the last closed in reverse order, unchanged but for their ids, at most sixteen |
| TabEffects.CreatesExactly | apps/host/BrowserTabModel.cpp:145-179 | Exactly which tabs are created: at the end, of the given kind and address, with the sanitised title, dormant, and shown if asked or alone |
| TabEffects.ReopensExactly | apps/host/BrowserTabModel.cpp:246-267 | The tab closed last comes back whole under its new id, and leaves the closed ones |
| TabEffects.ClosesExactly | apps/host/BrowserTabModel.cpp:214-244 | The others keep contents and order; closing the shown tab shows the one after it, or else the one before |
| TabEffects.MovesExactly | apps/host/BrowserTabModel.cpp:194-212 | The moved tab arrives whole, the others keep their order, the shown one stays shown |
| TabEffects.ActivatesExactly | apps/host/BrowserTabModel.cpp:181-192 | Only the selection changes |
| TabEffects.TitlesExactly | apps/host/BrowserTabModel.cpp:368-381 | Only the title of that tab changes, to the sanitised one |
| TabEffects.StatesExactly | apps/host/BrowserTabModel.cpp:383-422 | Each setter sets its own field of that tab, progress within 0 and 100 |
| TabEffects.SavingIsAskedExactlyWhen | apps/host/BrowserTabModel.cpp:145-503 | Each call asks once to save exactly if snapshots, order or selection changed; restoring a session never asks |
| TabEffects.ChangesAreToldExactly | apps/host/BrowserTabModel.cpp:274-422 | Observers are told once of a tab whose contents changed in place, and of no other |
| TabHistory.HistoryRefinesUnlimited | apps/host/BrowserTabModel.cpp:274-366 | After any accepted steps a tab's history is a suffix of an unlimited browser's, its index shifted by what was dropped, its address the entry shown, without repeats if there were none |
| TabHistory.TravelIsLimited | apps/host/BrowserTabModel.cpp:274-366 | Navigating, going back and forward step the tab's history, give it the validated kind, start its shown state over exactly if the kind changed, keep its title, and touch no other tab |
| TabHistory.StepRefines | apps/host/BrowserTabModel.cpp:296-307 | The bounded history refuses a step the unlimited one takes only when going back beyond what was dropped |
| TabHistory.BackThenForward | apps/host/BrowserTabModel.cpp:328-366 | Back and then forward restores address, history and index |
| BrowserTabs.BrowserTabModel.GenerateId | apps/host/BrowserTabModel.cpp:510-523 | The first drawn id that no open or recently closed tab has |
| BrowserTabs.BrowserTabModel.Reenter | apps/host/BrowserTabModel.cpp:145-151 | Any mutator called by an observer while another runs is refused without effect |
| BrowserTabs.BrowserTabModel.CreateTab | apps/host/BrowserTabModel.cpp:145-179 | The whole new state, signals included, whatever observers call meanwhile |
| BrowserTabs.BrowserTabModel.CloseTab | apps/host/BrowserTabModel.cpp:214-244 | The same for closing, which keeps the newest sixteen closed tabs |
| BrowserTabs.BrowserTabModel.ActivateTab | apps/host/BrowserTabModel.cpp:181-192 | The same for activating |
| BrowserTabs.BrowserTabModel.MoveTab | apps/host/BrowserTabModel.cpp:194-212 | The same for moving, which finds the active tab again by its id |
| BrowserTabs.BrowserTabModel.ReopenMostRecentlyClosed | apps/host/BrowserTabModel.cpp:246-267 | The same for reopening |
| BrowserTabs.BrowserTabModel.AppendVisit | apps/host/BrowserTabModel.cpp:296-305 | The loops leave the current entry last before the new address and at most 256 entries |
| BrowserTabs.BrowserTabModel.GoBack | apps/host/BrowserTabModel.cpp:328-346 | The same for going back |
| BrowserTabs.BrowserTabModel.GoForward | apps/host/BrowserTabModel.cpp:348-366 | The same for going forward |
| BrowserTabs.BrowserTabModel.SetTabTitle | apps/host/BrowserTabModel.cpp:368-381 | The same for a title, which is sanitised |
| BrowserTabs.BrowserTabModel.SetTabLifecycle | apps/host/BrowserTabModel.cpp:383-394 | The same for a tab's lifecycle, which is told but not worth saving |
| BrowserTabs.BrowserTabModel.SetTabLoadState | apps/host/BrowserTabModel.cpp:396-409 | The same for a tab's load state, whose progress is clamped before it is compared |
| BrowserTabs.BrowserTabModel.SetTabVisualState | apps/host/BrowserTabModel.cpp:411-422 | The same for a tab's visual state |
| BrowserTabs.BrowserTabModel.NavigateTab | apps/host/BrowserTabModel.cpp:274-311 | The same for navigating, whose loops cut the forward entries and the oldest |
| BrowserTabs.BrowserTabModel.CheckRestorable | apps/host/BrowserTabModel.cpp:430-450 | Accepts exactly the restorable sessions: bounds, valid snapshots, distinct ids |
| BrowserTabs.BrowserTabModel.ReplaceFromValidatedSnapshot | apps/host/BrowserTabModel.cpp:424-503 | The same for replacing the whole session |
| BrowserChrome.ReconcileTabBar | apps/host/BrowserChrome.cpp:660-712 | From any content of the strip it ends with exactly the batch's tabs in its order and the active one selected; in a strip in order, only unwanted tabs are dropped and only missing ones made |
| BrowserChrome.ClearIfCorrupt | apps/host/BrowserChrome.cpp:668-682 | The strip is emptied exactly if it holds too much or an empty or repeated id |
| BrowserChrome.DropUnwanted | apps/host/BrowserChrome.cpp:684-688 | Exactly the tabs not wanted are dropped |
| BrowserChrome.PlaceTab | apps/host/BrowserChrome.cpp:690-706 | The wanted tab is found or made and brought to its place; those before it stay |
| BrowserChrome.Chrome.ApplyBatch | apps/host/BrowserChrome.cpp:627-658 | Whatever observers leave between the two reconciliations, the strip shows the batch |
| BrowserChrome.Chrome.SynchronizeTabs | apps/host/BrowserChrome.cpp:518-552 | At most seventeen batches are applied, then the strip shows the last batch whose request was accepted; requests are accepted exactly if valid and not in the terminal phase |
| BrowserChrome.ModelIsShownExactlyWhen | apps/host/BrowserChrome.cpp:554-625 | A model is shown, as it is, exactly if bounds, selection, tabs and ids are in order |
| BrowserChrome.ValidModelsAreShown | apps/host/BrowserChrome.cpp:554-625 | Every valid tab model can be shown, as it is |
| BrowserChrome.LastAcceptedAppend | apps/host/BrowserChrome.cpp:518-552 | The last accepted request of a longer log is that of its end, if any there was accepted |
| Titles.Sanitise | apps/host/BrowserTabModel.cpp:579-616 | The loop returns the canonical title, or the canonical page title where markup and empty titles are refused |
| Titles.TitleIsAFullPrefix | apps/host/BrowserTabModel.cpp:579-616 | An accepted title has at most 256 units, whole characters, no control or bidi characters, is a prefix of the text without them and full unless all fits, and is unchanged by another pass |
| Titles.CanonicalTitlesAreFixed | apps/host/BrowserTabModel.cpp:661-678 | Exactly the short clean texts are left as they are |
| Titles.SanitisersAgree | apps/worker/RuntimeFacade.cpp:21-61 | A title the worker accepts passes the Host's sanitiser and then the tab model's unchanged |
| Titles.PageTitleIsRefusedExactlyWhen | apps/host/HostWorkerSessionController.cpp:27-67 | Which titles a page cannot have |
| Utf8.DecodeEncode | apps/host/BrowserSessionStore.cpp:210-218 | Decoding undoes encoding for well-paired text |
| Utf8.EncodeDecode | apps/host/BrowserSessionStore.cpp:287-293 | Decoded text is well paired and encodes to the bytes it came from |
| Json.ReadWritten | apps/host/BrowserSessionStore.cpp:287-293 | Reading a written value gives it back and stops right behind it, for every value without control characters |
| Json.TwoReplacementsEscape | apps/host/BrowserSessionStore.cpp:210-218 | Replacing backslashes and then quotes escapes each character on its own |
| Json.EscapeIsInjective | apps/host/BrowserSessionStore.cpp:210-218 | Different texts are escaped differently |
| SessionStore.NormalizedIsValid | apps/host/BrowserSessionStore.cpp:150-208 | What can be saved is valid once its titles are sanitised, and exactly the valid windows stay as they are |
| SessionStore.WindowRoundTrip | apps/host/BrowserSessionStore.cpp:287-385 | The document of a valid window is read as that window |
| SessionStore.KindRoundTrip | apps/host/BrowserSessionStore.cpp:95-119 | Kinds and their texts correspond one to one |
| SessionStore.LoadUndoesSave | apps/host/BrowserSessionStore.cpp:740-767 | Whatever can be saved is loaded as it was normalised |
| SessionStore.LoadedExactlyWhenSaved | apps/host/BrowserSessionStore.cpp:386-393 | Bytes are loaded as a window exactly if the window is valid and they are the bytes it is saved as |
| SessionStore.SavingIsInjective | apps/host/BrowserSessionStore.cpp:220-261 | Different valid windows are saved as different bytes |
| SessionRestore.LoadableIsRestorable | apps/host/MainWindow.cpp:503-529 | The windows that can be loaded are exactly those whose size fits, whose addresses are valid, and whose tabs the tab model restores with their active one |
| SessionRestore.RestoredIsWhatWasSaved | apps/host/MainWindow.cpp:1310-1315 | What is saved of a tab model is what an empty model takes over from the bytes: the same snapshots in the same order with the same active tab, all dormant |
| BrowserSessionStore.AppendJsonString | apps/host/BrowserSessionStore.cpp:210-218 | Appends the quoted text, each quote and backslash escaped |
| BrowserSessionStore.SerializedSnapshot | apps/host/BrowserSessionStore.cpp:220-261 | The loops write the document of the window, encoded |
| BrowserSessionStore.NormalizedSnapshot | apps/host/BrowserSessionStore.cpp:150-208 | The loop accepts exactly the windows that fit and sanitises their titles |
| BrowserSessionStore.NormalizeTab | apps/host/BrowserSessionStore.cpp:168-203 | A tab is accepted exactly if it fits, and its title sanitised |
| BrowserSessionStore.AppendTab | apps/host/BrowserSessionStore.cpp:241-257 | The object of one tab is appended |
| BrowserSessionStore.ReadTab | apps/host/BrowserSessionStore.cpp:345-380 | A tab is read exactly if its object has the right keys, types and bounds |
| BrowserSessionStore.ReadWindow | apps/host/BrowserSessionStore.cpp:294-385 | The same for the whole document |
| BrowserSessionStore.ParseSnapshot | apps/host/BrowserSessionStore.cpp:287-393 | The loops read a window, normalise it and compare its bytes |
| BrowserSessionStore.ValidateAndResolve | apps/host/BrowserSessionStore.cpp:769-796 | Only the kinds change: each is what its address resolves to now, or a trusted error |
| GestureRouter.EveryGrantHasItsObservation | apps/host/HostGestureRouter.cpp:390-434 | Every grant rests on the latest observation of its binding, made since its latest activation and at most 1000 ms before on the wrapping 32-bit clock |
| GestureTrust.EveryGrantHasATrustedInput | apps/host/HostGestureRouter.cpp:390-434 | That observation was made by a step of the run that is a trusted input: a click into the active binding's window or a key press under its focus, with its token open |
| GestureTrust.ObservationsAreTrusted | apps/host/HostGestureRouter.cpp:603-665 | So was every observation of a run |
| GestureTrust.LogGainsExactly | apps/host/HostGestureRouter.cpp:390-665 | A step observes exactly a trusted input, grants exactly on fresh unspent evidence of the named active binding with nothing against it, and defers and fires commands exactly as allowed |
| GestureTrust.EvidenceIsExactly | apps/host/HostGestureRouter.cpp:342-665 | Evidence of every binding after any step: made by its trusted input, spent by its grant, cleared by what speaks against it, and otherwise untouched |
| GestureTrust.UntrustedClickClears | apps/host/HostGestureRouter.cpp:642-652 | A click outside the active binding's window leaves it without evidence |
| GestureTrust.CommandKeysAreSwallowed | apps/host/HostGestureRouter.cpp:525-550 | From the press that starts a command to its release, and only then, a key is suppressed and its events are swallowed |
| GestureTrust.ActiveIsExactly | apps/host/HostGestureRouter.cpp:318-374 | Which binding is active after any step |
| GestureTrust.RevokedIsExactly | apps/host/HostGestureRouter.cpp:318-340 | A step revokes exactly the tokens of the bindings that go with it, besides what the outside revokes |
| GestureTrust.RegistersExactlyWhen | apps/host/HostGestureRouter.cpp:266-316 | Which bindings are registered; a replaced one's token is revoked |
| GestureTrust.ResultsAreTruthful | apps/host/HostGestureRouter.cpp:390-665 | What grant, mouse and dispatch calls return says what happened |
| GestureRouter.NoObservationServesTwice | apps/host/HostGestureRouter.cpp:404-430 | Two grants never rest on one observation |
| GestureRouter.CommandsFireOnlyWhileActive | apps/host/HostGestureRouter.cpp:525-608 | A deferred command fires only if its binding was active at the keystroke and no binding was activated or deactivated since |
| GestureRouter.TokensAreNotShared | apps/host/HostGestureRouter.cpp:266-316 | No admission token is registered for two tabs, and the active binding is registered |
| GestureRouter.NextInv | apps/host/HostGestureRouter.cpp:266-674 | Every call, input, dispatch and revocation keeps the router's invariant |
| HostGesture.HostGestureRouter.ActivateBinding | apps/host/HostGestureRouter.cpp:342-374 | The whole new state of an activation, which starts without evidence |
| HostGesture.HostGestureRouter.RegisterBinding | apps/host/HostGestureRouter.cpp:266-316 | Which bindings are registered, replacing one of the same tab; invalid ones, missing native hooks, a token in use elsewhere and a revoked one are refused |
| HostGesture.HostGestureRouter.UnregisterBinding | apps/host/HostGestureRouter.cpp:318-340 | The binding goes, its evidence is cleared and its token revoked |
| HostGesture.HostGestureRouter.ClearActiveEvidence | apps/host/HostGestureRouter.cpp:667-674 | Deactivation clears the evidence and moves the epoch, if a binding was active |
| HostGesture.HostGestureRouter.MouseInput | apps/host/HostGestureRouter.cpp:631-665 | A trusted click of the active binding is observed, an untrusted one clears its evidence |
| HostGesture.HostGestureRouter.DispatchDeferred | apps/host/HostGestureRouter.cpp:569-602 | A deferred command fires only under an open token, valid focus, the same binding and the same epoch |
| HostGesture.HostGestureRouter.Issue | apps/host/HostGestureRouter.cpp:390-434 | A grant spends the evidence; any refusal while active clears it |
| HostGesture.HostGestureRouter.Keyboard | apps/host/HostGestureRouter.cpp:525-629 | Which keys are swallowed, observed or deferred, and what clears the evidence |
| HostGesture.HostGestureRouter.FindTokenReuse | apps/host/HostGestureRouter.cpp:282-291 | Finds whether another binding already uses the token |
| OwnedPaths.ChopRootKey | apps/host/HostOwnedStateDirectory.cpp:18-26 | The loop removes trailing separators but not that of the volume's root |
| OwnedPaths.WithinIsTransitive | apps/host/HostOwnedStateDirectory.cpp:31-40 | Containment is transitive |
| OwnedPaths.WithinIsReflexive | apps/host/HostOwnedStateDirectory.cpp:31-40 | A path contains itself exactly if it has a key |
| OwnedPaths.WithinIsAntisymmetric | apps/host/HostOwnedStateDirectory.cpp:42-46 | Paths that contain each other have the same key |
| OwnedPaths.AncestorsAreComparable | apps/host/HostOwnedStateDirectory.cpp:31-40 | Two paths that contain a third contain one another |
| OwnedPaths.StrictMeansDifferent | apps/host/HostOwnedStateDirectory.cpp:42-46 | Strictly inside means inside with another key |
| OwnedPaths.DisjointHoldNothingTogether | apps/host/HostOwnedStateDirectory.cpp:48-51 | Paths that do not overlap contain no path in common |
| OwnedPaths.WithinIsByNames | apps/host/HostOwnedStateDirectory.cpp:31-40 | A path contains another exactly if its names are the first names of the other: sharing the first letters is not enough |
| OwnedPaths.SlashesDoNotMatter | apps/host/HostOwnedStateDirectory.cpp:12-17 | Both kinds of separator name the same path |
| OwnedPaths.ChoppedIsPrefix | apps/host/HostOwnedStateDirectory.cpp:18-26 | Only trailing separators are chopped |
| RuntimeConfig.FromArguments | apps/host/HostRuntimeConfig.cpp:280-392 | The loops decide the first check that fails |
| RuntimeConfig.AcceptedExactlyWhen | apps/host/HostRuntimeConfig.cpp:280-392 | The exact condition of acceptance, on path keys: what the deployment must hold, which roots are apart from which |
| RuntimeConfig.RefusalIsTruthful | apps/host/HostRuntimeConfig.cpp:280-392 | A refusal names something that is wrong |
| RuntimeConfig.NoPathIsInTwoRoots | apps/host/HostRuntimeConfig.cpp:328-345 | In an accepted configuration no path lies in two of deployment, mutable roots and external package directory |
| RuntimeConfig.WorkerHasOneRuntime | apps/host/HostRuntimeConfig.cpp:315-326 | The worker lies in exactly one runtime root |
| RuntimeConfig.StateNeverOverlapsRuntime | apps/host/HostRuntimeConfig.cpp:346-352 | The check of the state directory against the runtime roots cannot fail |
| RuntimeConfig.StateNeverOverlapsKey | apps/host/HostRuntimeConfig.cpp:353-357 | Nor can the check against the key's directory, if it is the one that holds the key |
| ProcessTree.WalkTree | apps/host/PerformanceSampler.cpp:93-105 | With unique pids the growing walk ends and finds exactly the readable processes joined to the root by chains in which no child is older than its parent, and counts the unreadable ones |
| ProcessTree.Complete | apps/host/PerformanceSampler.cpp:93-105 | A walk whose every process has had its children tried has found all of them |

## Left out

- Qt widgets, painting, window messages, demo pages, navigation bar and performance panel: user interface. The tab strip is kept as a list of items with insert, remove, move, set and select.
- Win32 calls, access control, file identity, sandbox internals, pipes and network: each is an operation that succeeds or fails as the outside decides.
- Real time: timers are steps that may be taken whenever armed; the back-off of the retirement manager is a sum of numbers.
- Destruction of the controller, of the IO agent and of the launcher while work is in progress, and the case that posting a call to another thread fails.
- Command, load, serial and epoch counters are unbounded numbers where the source has 64-bit ones; the guard against the largest generation is left out with them.
- The controller: heartbeat and page-metadata signals, which change no state, and the diagnostic capabilityResponseQueued signal. The runtime's authority never changes, so the comparisons of it with the bound one that follow a successful bind are left out. Observers may return in any order the nesting of calls allows, and events the controller posts to itself share one queue with those of the agent.
- RequestIoStop: does not model a thread object that exists but is not running, for which it does nothing. A started thread ends only by the agent's abort, which is called only after stopRequested was set, so this concerns only a thread that failed to start.
- PollSession: the incoming messages are a given list; how the pipe and the message parser produce them is not modelled, except that request ids are not empty.
- The launcher: expectedStop and the signals' arguments, which change only what observers are told, and the launch thread's own steps, which are one step that succeeds or fails; LaunchCleanup starts from whatever resources that leaves.
- Launch: does not model the checks of package path and entry point beyond their outcome, because they ask the file system.
- SubmitRetirement: whether the manager still accepts is one decision for each call of the launcher.
- AttemptRetirement: the launch thread's end is awaited by an outcome, not by the condition variable.
- RunAttempts: the attempts' outcomes are given beforehand as a list; the state changes between attempts seen by other threads are modelled in RetirementSystem.
- SetTabLifecycle: does not model values outside the enumeration, which are refused; the same holds for SetTabVisualState.
- BrowserTabs: signals are a list and observers call mutators only, as many and as deep as their script says; reading the model and deleting it from an observer are left out.
- The texts, icons and accessible names that BrowserChrome makes of a tab's title are represented by the title.
- ReadInt: does not read fractions and exponents, which the writer never produces; the reader has no literals true, false and null and no limit on nesting.
- Parse: the validity of addresses is a parameter of which only non-emptiness, pairing and freedom from control characters are used; BrowserAddress is not part of this model. The size limit of the session file and the store's file operations are left out.
- HostGesture: bindings are records named by number, not objects that callers share; native hooks and the reading of focus and windows are outcomes.
- Native: case folding is an arbitrary function and the system's root path a parameter, because neither is decided by this code.
- FromArguments: the parsing of arguments, the resolution of paths and the checks of the key file are left out; the root checks start from resolved paths.
- RestoredIsWhatWasSaved: the kinds of the restored tabs are those saved; that they are resolved anew in between is stated by ValidateAndResolve alone.
- Performance numbers (calculate) are left out: sums and a clamp over floating point.
