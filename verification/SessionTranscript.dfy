/**
 What a worker is told.  The causes of its messages are recorded step by step from the
 state and the action alone; the messages delivered, in flight and queued are proved to
 be exactly those the causes call for, in their order.
 */
module SessionTranscript {
  import opened Common
  import opened SessionTypes
  import opened SessionController
  import opened SessionIo
  import opened SessionSystem
  import opened SessionInvariant
  import opened SessionIoInvariant
  import opened SessionTheorems

  datatype Request = Request(id: string, route: string)

  /** Why the worker is told something. */
  datatype Cause =
    | RouteAsked(loadId: nat, route: string)
    | VisibilitySet(visible: bool)
    | TurnedAway(request: Request)
    | Decided(request: Request, accepted: bool, loadId: nat)
    | RuntimeAnswered(requestId: string, result: BrokerResult)
    | Competing(requestId: string)
    | Unbound(requestId: string)

  /** What it is told. */
  function Answer(cause: Cause): seq<Message> {
    match cause
    case RouteAsked(loadId, route) => [RouteLoad(loadId, route)]
    case VisibilitySet(visible) => [VisibilityChanged(visible)]
    case TurnedAway(request) => [NavigationReply(request.id, false)]
    case Decided(request, accepted, loadId) =>
      [NavigationReply(request.id, accepted)] + (if accepted then [RouteLoad(loadId, request.route)] else [])
    case RuntimeAnswered(requestId, result) => [CapabilityReply(requestId, result)]
    case Competing(requestId) => [CapabilityReply(requestId, BrokerResult(false, Busy))]
    case Unbound(requestId) => [CapabilityReply(requestId, BrokerResult(false, Denied))]
  }

  function Script(causes: seq<Cause>): seq<Message> {
    if causes == [] then [] else Script(causes[..|causes| - 1]) + Answer(causes[|causes| - 1])
  }

  // ---- The causes of a step ---------------------------------------------------------------

  predicate Room(c: Gui, messages: nat) { QueueLength(c.queue) + messages <= MaxQueuedCommands }

  predicate CanLoad(c: Gui, route: string) { route != "" && |c.routes.loads| < MaxQueuedCommands }

  /** The worker's request that the step takes up. */
  function Taken(s: System, a: Action): seq<Request> {
    if a.DeliverToGui? && s.toGui != [] && s.toGui[0].NavigationRequested? && Current(s.gui, s.toGui[0].generation) then
      [Request(s.toGui[0].requestId, s.toGui[0].route)]
    else []
  }

  function CausedByReturn(c: Gui, f: Frame, navigation: Navigation, valid: bool): seq<Cause> {
    if !Current(c, f.generation) then []
    else
      match f
      case Navigating(_, requestId, route) => [Decided(Request(requestId, route), navigation == Accepted, c.routes.nextLoad + 1)]
      case ObservingCapability(_, _, requestId) =>
        if c.slot.activeRequest != "" then [Competing(requestId)]
        else if !c.slot.runtimeBound && valid && Room(c, 1) then [Unbound(requestId)]
        else []
      case _ => []
  }

  /** Read off the state before the step and what the callers and the outside do. */
  function Caused(s: System, a: Action): seq<Cause> {
    var c := s.gui;
    if c.life.phase != Running then []
    else
      match a
      case CallRequestRouteLoad(route, valid) =>
        if valid && CanLoad(c, route) && Room(c, 1) then [RouteAsked(c.routes.nextLoad + 1, route)] else []
      case CallSendVisibility(visible) => if Room(c, 1) then [VisibilitySet(visible)] else []
      case CompleteDispatch(i, hasUse, result, valid) =>
        if i < |s.outstanding| && s.outstanding[i].generation == c.life.generation && hasUse && c.slot.runtimeBound
           && valid && Room(c, 1)
        then [RuntimeAnswered(s.outstanding[i].requestId, result)]
        else []
      case DeliverToGui(_, _) => if c.routes.loads == map[] || Taken(s, a) == [] then [] else [TurnedAway(Taken(s, a)[0])]
      case ReturnFromObserver(navigation, _, valid, _) =>
        if s.frames == [] then [] else CausedByReturn(c, s.frames[|s.frames| - 1], navigation, valid)
      case _ => []
  }

  function SendMessages(events: seq<IoEvent>): seq<Message> {
    if events == [] then []
    else (if events[0].SendMessage? then [events[0].command.message] else []) + SendMessages(events[1..])
  }

  function Messages(commands: seq<Command>): seq<Message> {
    if commands == [] then [] else Messages(commands[..|commands| - 1]) + [commands[|commands| - 1].message]
  }

  /** The message that the step hands to the agent. */
  function Delivered(s: System, a: Action): seq<Message> {
    if a.DeliverToIo? && s.io.Some? && s.io.value.started && s.toIo != [] then SendMessages(s.toIo[..1]) else []
  }

  /** A session with the history of its current generation. */
  datatype Told = Told(system: System, delivered: seq<Message>, causes: seq<Cause>, asked: seq<Request>)

  function Follow(x: Told, a: Action): Told {
    var (s, t) := (x.system, Next(x.system, a));
    if t.gui.life.generation != s.gui.life.generation then Told(t, [], [], [])
    else Told(t, x.delivered + Delivered(s, a), x.causes + Caused(s, a), x.asked + Taken(s, a))
  }

  function Listen(actions: seq<Action>): Told {
    Iterate(Follow, Told(InitialSystem, [], [], []), actions)
  }

  /** All messages of the session so far: delivered to the agent, on their way to it, and queued. */
  function Said(x: Told): seq<Message> {
    x.delivered + SendMessages(x.system.toIo) + Messages(x.system.gui.queue.outbound)
  }

  // ---- Requests -------------------------------------------------------------------------------

  function Is(r: Request): Request -> bool { (x: Request) => x == r }

  function Answers(r: Request): Cause -> bool { (x: Cause) => (x.TurnedAway? || x.Decided?) && x.request == r }

  function Asks(g: nat, r: Request): Frame -> bool {
    (f: Frame) => f.Navigating? && f.generation == g && Request(f.requestId, f.route) == r
  }

  /** Every request that was taken up has been answered once, or its callback has not returned. */
  predicate Answered(x: Told, r: Request) {
    Count(x.asked, Is(r)) == Count(x.causes, Answers(r)) + Count(x.system.frames, Asks(x.system.gui.life.generation, r))
  }

  /** The messages the controller holds: on their way out and queued. */
  function Content(c: Gui): seq<Message> {
    SendMessages(c.out.posted) + Messages(c.queue.outbound)
  }

  predicate LastIs(front: seq<Message>, message: Message) {
    front != [] && front[|front| - 1] == message
  }

  /** `front` ends with the message in flight. */
  predicate InFlight(front: seq<Message>, c: Gui) {
    c.queue.active.Some? ==> LastIs(front + SendMessages(c.out.posted), c.queue.active.value.message)
  }

  /** While the session runs, what was said is what the causes call for, and what is in flight was said last. */
  predicate Scripted(x: Told) {
    x.system.gui.life.phase == Running ==>
      Said(x) == Script(x.causes) && InFlight(x.delivered + SendMessages(x.system.toIo), x.system.gui)
  }

  // ---- Messages in sequences -------------------------------------------------------------

  lemma {:induction false} SendsAppend(s: seq<IoEvent>, t: seq<IoEvent>)
    ensures SendMessages(s + t) == SendMessages(s) + SendMessages(t)
  {
    if s == [] {
      assert s + t == t;
    } else {
      assert (s + t)[0] == s[0] && (s + t)[1..] == s[1..] + t;
      SendsAppend(s[1..], t);
    }
  }

  lemma {:induction false} MessagesAppend(s: seq<Command>, t: seq<Command>)
    ensures Messages(s + t) == Messages(s) + Messages(t)
    decreases t
  {
    if t == [] {
      assert s + t == s;
    } else {
      var front := t[..|t| - 1];
      MessagesAppend(s, front);
      assert (s + t)[..|s + t| - 1] == s + front;
    }
  }

  lemma OneMessage(c: Command, e: IoEvent)
    ensures Messages([c]) == [c.message] && SendMessages([e]) == if e.SendMessage? then [e.command.message] else []
  {
    assert [c][..0] == [] && [e][1..] == [];
  }

  lemma FirstMessage(s: seq<Command>)
    requires s != []
    ensures Messages(s) == [s[0].message] + Messages(s[1..])
  {
    assert s == [s[0]] + s[1..];
    MessagesAppend([s[0]], s[1..]);
    OneMessage(s[0], ResumePolling(0));
  }

  lemma ScriptSnoc(causes: seq<Cause>, more: seq<Cause>)
    requires |more| <= 1
    ensures Script(causes + more) == Script(causes) + Script(more)
  {
    if more == [] {
      assert causes + more == causes;
    } else {
      assert (causes + more)[..|causes|] == causes && more[..0] == [];
    }
  }

  lemma OneCause(cause: Cause)
    ensures Script([cause]) == Answer(cause)
  {
    assert [cause][..0] == [];
  }

  // ---- What each function of the controller says -----------------------------------------------

  /** From `c` to `d` exactly `messages` are added at the end. */
  predicate Adds(front: seq<Message>, c: Gui, d: Gui, messages: seq<Message>) {
    Content(d) == Content(c) + messages && InFlight(front, d)
  }

  /** If the session goes on, exactly `messages` are added. */
  predicate Tells(front: seq<Message>, c: Gui, d: Gui, messages: seq<Message>) {
    d.life.generation == c.life.generation && d.life.phase == Running ==>
      c.life.phase == Running && Adds(front, c, d, messages)
  }

  lemma PumpAdds(front: seq<Message>, c: Gui)
    requires InFlight(front, c)
    ensures Adds(front, c, PumpOutbound(c), [])
  {
    var d := PumpOutbound(c);
    if d != c {
      var head := c.queue.outbound[0];
      SendsAppend(c.out.posted, [SendMessage(c.life.generation, head)]);
      OneMessage(head, SendMessage(c.life.generation, head));
      FirstMessage(c.queue.outbound);
      assert Content(d) == Content(c);
    }
  }

  lemma EnqueueAdds(front: seq<Message>, c: Gui, command: Command)
    requires InFlight(front, c)
    ensures Adds(front, c, Enqueue(c, command), [command.message])
    ensures var d := Enqueue(c, command); d.life == c.life && d.routes == c.routes && d.slot == c.slot
  {
    var id := c.queue.nextCommand + 1;
    var d := c.(queue := c.queue.(nextCommand := id, outbound := c.queue.outbound + [command.(id := id)]));
    MessagesAppend(c.queue.outbound, [command.(id := id)]);
    OneMessage(command.(id := id), ResumePolling(0));
    assert Content(d) == Content(c) + [command.message];
    PumpAdds(front, d);
  }

  lemma ResumeAdds(front: seq<Message>, c: Gui)
    requires InFlight(front, c)
    ensures Adds(front, c, ResumeIoPolling(c), [])
  {
    SendsAppend(c.out.posted, [ResumePolling(c.life.generation)]);
    OneMessage(Command(0, VisibilityChanged(true), "", false, false, "", None, false), ResumePolling(c.life.generation));
    assert Content(ResumeIoPolling(c)) == Content(c);
  }

  lemma MarkAdds(front: seq<Message>, c: Gui)
    requires InFlight(front, c)
    ensures Adds(front, c, MarkResume(c), [])
  {}

  lemma FailTells(front: seq<Message>, c: Gui, d: Gui, error: Error, messages: seq<Message>)
    ensures Tells(front, c, FailClosed(d, error), messages)
  {}

  lemma SameTells(front: seq<Message>, c: Gui)
    requires InFlight(front, c)
    ensures Tells(front, c, c, [])
  {}

  lemma RouteLoadTells(front: seq<Message>, c: Gui, route: string, valid: bool)
    requires InFlight(front, c)
    ensures var (d, ok) := EnqueueRouteLoad(c, route, valid);
      && (ok <==> valid && CanLoad(c, route) && Room(c, 1)) && d.life == c.life
      && Adds(front, c, d, if ok then [RouteLoad(c.routes.nextLoad + 1, route)] else [])
  {
    hide Enqueue;
    var id := c.routes.nextLoad + 1;
    EnqueueAdds(front, c.(routes := Routes(c.routes.loads[id := route], id, route, false, id)),
                Command(0, RouteLoad(id, route), route, true, false, "", None, false));
  }

  lemma ReplyTells(front: seq<Message>, c: Gui, requestId: string, valid: bool)
    requires InFlight(front, c)
    ensures c.life.phase == Running ==> Tells(front, c, ReplyAndResume(c, requestId, valid), [NavigationReply(requestId, false)])
  {
    hide Enqueue, FailClosed;
    EnqueueAdds(front, c, PlainCommand(NavigationReply(requestId, false), true));
    FailTells(front, c, c, ResponseQueueFailed, [NavigationReply(requestId, false)]);
  }

  /** An accepted navigation: the reply and, directly behind it, the load of its route. */
  lemma AcceptedTells(front: seq<Message>, c: Gui, requestId: string, route: string, loadValid: bool)
    requires InFlight(front, c) && c.life.phase == Running
    ensures var (d, ok) := EnqueueRouteLoad(Enqueue(c, PlainCommand(NavigationReply(requestId, true), false)), route, loadValid);
      Tells(front, c, if ok then MarkResume(d) else FailClosed(d, OutboundQueueFull),
            [NavigationReply(requestId, true), RouteLoad(c.routes.nextLoad + 1, route)])
  {
    hide Enqueue, FailClosed, MarkResume, EnqueueRouteLoad;
    var messages := [NavigationReply(requestId, true), RouteLoad(c.routes.nextLoad + 1, route)];
    var reply := PlainCommand(NavigationReply(requestId, true), false);
    EnqueueAdds(front, c, reply);
    var d := Enqueue(c, reply);
    RouteLoadTells(front, d, route, loadValid);
    var e := EnqueueRouteLoad(d, route, loadValid).0;
    FailTells(front, c, e, OutboundQueueFull, messages);
    MarkAdds(front, e);
    assert Content(c) + [messages[0]] + [messages[1]] == Content(c) + messages;
  }

  lemma NavigationTells(front: seq<Message>, c: Gui, f: Frame, navigation: Navigation, valid: bool, loadValid: bool)
    requires InFlight(front, c) && f.Navigating?
    ensures Tells(front, c, NavigationReturns(c, f.generation, f.requestId, f.route, navigation, valid, loadValid),
                  Script(CausedByReturn(c, f, navigation, valid)))
  {
    hide Enqueue, FailClosed, MarkResume, EnqueueRouteLoad, Adds, InFlight, ReplyAndResume;
    var messages := Script(CausedByReturn(c, f, navigation, valid));
    FailTells(front, c, c, NavigationCallbackFailed, messages);
    FailTells(front, c, c, OutboundQueueFull, messages);
    SameTells(front, c);
    if Current(c, f.generation) {
      OneCause(Decided(Request(f.requestId, f.route), navigation == Accepted, c.routes.nextLoad + 1));
      assert messages == if navigation == Accepted then [NavigationReply(f.requestId, true), RouteLoad(c.routes.nextLoad + 1, f.route)]
                         else [NavigationReply(f.requestId, false)];
      ReplyTells(front, c, f.requestId, valid);
      AcceptedTells(front, c, f.requestId, f.route, loadValid);
    }
  }

  lemma ResponseTells(front: seq<Message>, c: Gui, authority: Option<Authority>, hasUse: bool, generation: nat,
                      requestId: string, result: BrokerResult, completes: bool, valid: bool)
    requires InFlight(front, c)
    ensures var (d, ok) := QueueCapabilityResponse(c, authority, hasUse, generation, requestId, result, completes, valid);
      && (ok <==> !RefusesResponse(c, authority, hasUse, generation, requestId, result, completes) && valid && Room(c, 1))
      && Tells(front, c, d, if ok then [CapabilityReply(requestId, result)] else [])
  {
    hide Enqueue, RefusesResponse;
    EnqueueAdds(front, c, Command(0, CapabilityReply(requestId, result), "", false, false,
                                  if completes then requestId else "", authority, hasUse));
  }

  /** What the invariant says of the binding when a request reaches the slot. */
  predicate Bound(c: Gui, authority: Option<Authority>) {
    (c.slot.runtimeBound ==> c.slot.authority.Some?) && (c.slot.authority.Some? ==> c.slot.authority == authority)
  }

  /** The slot and the dispatches have no part in what is told. */
  lemma ClaimTells(front: seq<Message>, c: Gui, claimed: Gui, d: Gui, messages: seq<Message>)
    requires claimed == c.(slot := claimed.slot, out := c.out.(dispatched := claimed.out.dispatched))
    ensures InFlight(front, claimed) == InFlight(front, c)
    ensures Tells(front, claimed, d, messages) == Tells(front, c, d, messages)
  {}

  lemma CompetingTells(front: seq<Message>, c: Gui, f: Frame, use: bool, valid: bool)
    requires InFlight(front, c) && f.ObservingCapability? && Current(c, f.generation) && c.slot.activeRequest != ""
    ensures Tells(front, c, CapabilityObserved(c, f.authority, f.generation, f.requestId, use, valid),
                  [CapabilityReply(f.requestId, BrokerResult(false, Busy))])
  {
    hide FailClosed, QueueCapabilityResponse, Adds, InFlight;
    var messages := [CapabilityReply(f.requestId, BrokerResult(false, Busy))];
    FailTells(front, c, c, CapabilityAuthorityMismatch, messages);
    FailTells(front, c, c, ResponseQueueFailed, messages);
    ResponseTells(front, c, f.authority, true, f.generation, f.requestId, BrokerResult(false, Busy), false, valid);
    var busy := QueueCapabilityResponse(c, f.authority, true, f.generation, f.requestId, BrokerResult(false, Busy), false, valid);
    FailTells(front, c, busy.0, ResponseQueueFailed, messages);
  }

  lemma ClaimedTells(front: seq<Message>, c: Gui, f: Frame, use: bool, valid: bool)
    requires InFlight(front, c) && f.ObservingCapability? && f.requestId != "" && Current(c, f.generation)
    requires Bound(c, f.authority) && c.slot.activeRequest == ""
    ensures Tells(front, c, CapabilityObserved(c, f.authority, f.generation, f.requestId, use, valid),
                  if !c.slot.runtimeBound && valid && Room(c, 1) then [CapabilityReply(f.requestId, BrokerResult(false, Denied))] else [])
  {
    hide FailClosed, QueueCapabilityResponse, Adds, InFlight;
    var denied := BrokerResult(false, Denied);
    var d := CapabilityObserved(c, f.authority, f.generation, f.requestId, use, valid);
    var claimed := c.(slot := c.slot.(activeRequest := f.requestId));
    ClaimTells(front, c, claimed, d, [CapabilityReply(f.requestId, denied)]);
    ClaimTells(front, c, claimed, d, []);
    if c.slot.runtimeBound {
      ClaimTells(front, c, d, d, []);
      SameTells(front, d);
    } else {
      FailTells(front, c, c, CapabilityAuthorityMismatch, [CapabilityReply(f.requestId, denied)]);
      FailTells(front, c, c, CapabilityAuthorityMismatch, []);
      ResponseTells(front, claimed, None, false, f.generation, f.requestId, denied, true, valid);
    }
  }

  lemma ObservedTells(front: seq<Message>, c: Gui, f: Frame, use: bool, valid: bool)
    requires InFlight(front, c) && f.ObservingCapability?
    requires Current(c, f.generation) ==> f.requestId != "" && Bound(c, f.authority)
    ensures Tells(front, c, CapabilityObserved(c, f.authority, f.generation, f.requestId, use, valid),
                  Script(CausedByReturn(c, f, Accepted, valid)))
  {
    hide Adds, InFlight;
    SameTells(front, c);
    if Current(c, f.generation) {
      OneCause(Competing(f.requestId));
      OneCause(Unbound(f.requestId));
      hide CapabilityObserved;
      if c.slot.activeRequest != "" { CompetingTells(front, c, f, use, valid); } else { ClaimedTells(front, c, f, use, valid); }
    }
  }

  lemma FinishTells(front: seq<Message>, c: Gui, generation: nat, commandId: nat, success: bool, published: bool, error: Error)
    requires InFlight(front, c)
    ensures Tells(front, c, CommandFinishes(c, generation, commandId, success, published, error).0, [])
  {
    hide FailClosed, PumpAndResume;
    SameTells(front, c);
    if Current(c, generation) && c.queue.active.Some? && c.queue.active.value.id == commandId {
      var idle := c.(queue := c.queue.(active := None));
      FailTells(front, c, idle, if error == NoError then SendFailed else error, []);
      PumpAndResumeTells(front, idle, c.queue.active.value.resumePollingAfter);
      PumpAndResumeTells(front, idle.(slot := idle.slot.(activeRequest := "")), c.queue.active.value.resumePollingAfter);
    }
  }

  lemma PumpAndResumeTells(front: seq<Message>, c: Gui, resume: bool)
    requires InFlight(front, c)
    ensures Adds(front, c, PumpAndResume(c, resume), []) && PumpAndResume(c, resume).life == c.life
  {
    PumpAdds(front, c);
    ResumeAdds(front, PumpOutbound(c));
  }

  lemma RouteResponseTells(front: seq<Message>, c: Gui, generation: nat, loadId: nat, ok: bool, route: string)
    requires InFlight(front, c)
    ensures Tells(front, c, RouteResponseArrives(c, generation, loadId, ok, route).0, [])
  {
    hide FailClosed, ResumeIoPolling;
    FailTells(front, c, c, UnexpectedResponse, []);
    FailTells(front, c, c, RouteLoadRejected, []);
    if Current(c, generation) && loadId in c.routes.loads {
      var rest := c.routes.(loads := c.routes.loads - {loadId},
                            latestAcknowledged := c.routes.latestAcknowledged || loadId == c.routes.latestId);
      ResumeAdds(front, c.(routes := rest));
      FailTells(front, c, c.(routes := rest), RouteLoadCompletionMismatch, []);
    }
  }

  // ---- Every step adds what its causes call for -------------------------------------------------------

  /** The controller has run to `d`. */
  lemma AbsorbScripted(x: Told, s: System, d: Gui, frames: seq<Frame>, more: seq<Cause>, t: Told)
    requires Scripted(x) && x.system.gui == Flushed(x.system.gui) && s.gui == x.system.gui && s.toIo == x.system.toIo
    requires |more| <= 1 && Inv(t.system)
    requires Tells(x.delivered + SendMessages(s.toIo), s.gui, d, Script(more))
    requires d.life.generation == s.gui.life.generation
    requires t.system == Absorb(s, d, frames) && t.delivered == x.delivered && t.causes == x.causes + more
    ensures Scripted(t)
  {
    hide Inv, Absorb, Flushed, SendMessages, Messages, Script;
    GuiFacts(t.system);
    Quiet(s.gui);
    AbsorbedLife(s);
    if d.life.phase == Running {
      AbsorbedQueues(s, d, frames);
      SendsAppend(s.toIo, d.out.posted);
      ScriptSnoc(x.causes, more);
      SaidIs(x.delivered, SendMessages(s.toIo), SendMessages(d.out.posted), Messages(d.queue.outbound),
             SendMessages(s.gui.out.posted), Messages(s.gui.queue.outbound), Script(more));
    }
  }

  lemma Quiet(c: Gui)
    requires c == Flushed(c)
    ensures SendMessages(c.out.posted) == []
  {}

  lemma AbsorbedQueues(s: System, d: Gui, frames: seq<Frame>)
    requires d.life.generation == s.gui.life.generation && d.life.hasIo
    ensures var t := Absorb(s, d, frames);
      t.toIo == s.toIo + d.out.posted && t.gui.queue == d.queue && SendMessages(t.gui.out.posted) == []
  {}

  lemma SaidIs<T>(delivered: seq<T>, toIo: seq<T>, posted: seq<T>, outbound: seq<T>, posted': seq<T>, outbound': seq<T>, more: seq<T>)
    requires posted + outbound == posted' + outbound' + more && posted' == []
    ensures delivered + (toIo + posted) + outbound == delivered + toIo + outbound' + more
    ensures delivered + (toIo + posted) == delivered + toIo + posted
  {
    assert delivered + (toIo + posted) + outbound == delivered + toIo + (posted + outbound);
  }

  /** A session that is over is not revived, and a new one, of a later generation, starts with an empty queue. */
  predicate Succeeds(life: Life, life': Life, q: Queue) {
    && life'.generation >= life.generation
    && (life.phase != Running && life'.generation == life.generation ==> life'.phase != Running)
    && (life'.generation != life.generation && life'.phase == Running ==> q.outbound == [] && q.active.None?)
  }

  predicate StaysDown(c: Gui, d: Gui) { Succeeds(c.life, d.life, d.queue) }

  lemma CallsStayDown(c: Gui, route: string, valid: bool, flag: bool, authority: Option<Authority>, outcome: StartOutcome, done: Dispatch,
                      result: BrokerResult)
    requires c.life.phase == Running ==> c.life.hasIo
    ensures StaysDown(c, RequestRouteLoad(c, route, valid).0) && StaysDown(c, SendVisibilityChanged(c, flag).0)
    ensures StaysDown(c, Shutdown(c, flag).0) && StaysDown(c, Attach(c, authority, outcome).0)
    ensures authority.Some? ==> StaysDown(c, UnbindCapabilityRuntime(c, authority.value))
    ensures StaysDown(c, SubmitCapabilityCompletion(c, done, flag, result, valid).0)
  {}

  lemma DeliveriesStayDown(c: Gui, e: GuiEvent, valid: bool, outcome: StartOutcome)
    requires c.life.cleanupFinal != Running
    ensures e.NavigationRequested? ==> StaysDown(c, NavigationArrives(c, e.generation, e.requestId, e.route, valid).0)
    ensures e.RouteLoadResponse? ==> StaysDown(c, RouteResponseArrives(c, e.generation, e.loadId, e.ok, e.route).0)
    ensures e.CommandFinished? ==>
              StaysDown(c, CommandFinishes(c, e.generation, e.commandId, e.success, e.published, e.error).0)
    ensures e.SessionFailed? || e.PostedFailure? ==> StaysDown(c, SessionFailureArrives(c, e.generation, e.error))
    ensures StaysDown(c, ShutdownFinishes(c, e.generation)) && StaysDown(c, ThreadFinishes(c, e.generation, outcome))
  {}

  lemma ReturnsStayDown(c: Gui, f: Frame, navigation: Navigation, use: bool, valid: bool, loadValid: bool)
    ensures f.Navigating? ==>
              StaysDown(c, NavigationReturns(c, f.generation, f.requestId, f.route, navigation, valid, loadValid))
    ensures f.Acknowledging? ==> StaysDown(c, AcknowledgementReturns(c, f.generation))
    ensures f.ObservingCapability? ==>
              StaysDown(c, CapabilityObserved(c, f.authority, f.generation, f.requestId, use, valid))
    ensures f.ReportingSent? ==> StaysDown(c, SentReportReturns(c, f.generation, f.resume))
  {}

  lemma DeliveredLife(s: System, valid: bool, outcome: StartOutcome)
    requires s.toGui != []
    ensures var (c, e, d) := (s.gui, s.toGui[0], Deliver(PopGui(s), s.toGui[0], valid, outcome).gui);
      var d' := match e
                case NavigationRequested(g, requestId, route) => NavigationArrives(c, g, requestId, route, valid).0
                case RouteLoadResponse(g, loadId, ok, route) => RouteResponseArrives(c, g, loadId, ok, route).0
                case CapabilityRequested(_, _, _) => c
                case CommandFinished(g, commandId, success, published, error) =>
                  CommandFinishes(c, g, commandId, success, published, error).0
                case SessionFailed(g, error) => SessionFailureArrives(c, g, error)
                case PostedFailure(g, error) => SessionFailureArrives(c, g, error)
                case ShutdownFinished(g) => ShutdownFinishes(c, g)
                case ThreadFinished(g) => ThreadFinishes(c, g, outcome);
      d.life == d'.life && d.queue == d'.queue
  {
    hide NavigationArrives, RouteResponseArrives, CommandFinishes, SessionFailureArrives, ShutdownFinishes, ThreadFinishes;
  }

  lemma NextStaysDown(s: System, a: Action)
    requires Inv(s)
    ensures StaysDown(s.gui, Next(s, a).gui)
  {
    hide RequestRouteLoad, SendVisibilityChanged, Shutdown, Attach, UnbindCapabilityRuntime, SubmitCapabilityCompletion, NextIo,
         NavigationArrives, RouteResponseArrives, CommandFinishes, SessionFailureArrives, ShutdownFinishes, ThreadFinishes,
         NavigationReturns, AcknowledgementReturns, CapabilityObserved, SentReportReturns, Inv, AbsorbIo, Absorb;
    var c, nobody, nothing := s.gui, Dispatch(0, "", Authority(0, 0)), BrokerResult(false, Denied);
    assert StaysDown(c, c);
    hide Succeeds;
    GuiFacts(s);
    AbsorbedLife(s);
    match a
    case CallRequestRouteLoad(route, valid) => CallsStayDown(c, route, valid, false, None, Started, nobody, nothing);
    case CallSendVisibility(visible) => CallsStayDown(c, "", false, visible, None, Started, nobody, nothing);
    case CallShutdown(hasReason) => CallsStayDown(c, "", false, hasReason, None, Started, nobody, nothing);
    case CallAttach(authority, outcome) => CallsStayDown(c, "", false, false, authority, outcome, nobody, nothing);
    case CallUnbind(bound) => CallsStayDown(c, "", false, false, Some(bound), Started, nobody, nothing);
    case CompleteDispatch(i, hasUse, result, valid) =>
      if i < |s.outstanding| {
        AbsorbedLife(Completed(s, i));
        CallsStayDown(c, "", valid, hasUse, None, Started, s.outstanding[i], result);
      }
    case DeliverToGui(valid, outcome) =>
      if s.toGui != [] {
        DeliveredLife(s, valid, outcome);
        DeliveriesStayDown(c, s.toGui[0], valid, outcome);
      }
    case ReturnFromObserver(navigation, hasUse, valid, loadValid) =>
      if s.frames != [] {
        AbsorbedLife(PopFrame(s));
        ReturnsStayDown(c, s.frames[|s.frames| - 1], navigation, hasUse, valid, loadValid);
      }
    case DestroyRuntime =>
    case _ => IoKeepsGui(s, a);
  }

  lemma IoKeepsGui(s: System, a: Action)
    requires !OnGuiThread(a)
    ensures Next(s, a).gui == s.gui
  {}

  lemma LastSaid(x: Told)
    requires Scripted(x) && x.system.gui.life.phase == Running
    ensures InFlight(x.delivered + SendMessages(x.system.toIo), x.system.gui)
  {}

  lemma RequestScripted(x: Told, valid: bool, outcome: StartOutcome, y: Told)
    requires Scripted(x) && Inv(x.system) && Inv(y.system) && x.system.gui.life.phase == Running && x.system.toGui != []
    requires x.system.toGui[0].NavigationRequested? && y.system == Deliver(PopGui(x.system), x.system.toGui[0], valid, outcome)
    requires y.delivered == x.delivered && y.causes == x.causes + Caused(x.system, DeliverToGui(valid, outcome))
    requires y.system.gui.life.generation == x.system.gui.life.generation
    ensures Scripted(y)
  {
    hide Inv, NavigationArrives, Tells, Scripted, Absorb, Script, InFlight;
    var (s, c, e) := (x.system, x.system.gui, x.system.toGui[0]);
    var more := Caused(s, DeliverToGui(valid, outcome));
    GuiFacts(s);
    LastSaid(x);
    AbsorbedLife(PopGui(s));
    OneCause(TurnedAway(Request(e.requestId, e.route)));
    NoCause();
    ArrivalTells(x.delivered + SendMessages(s.toIo), c, e.generation, e.requestId, e.route, valid);
    assert Script(more) == if Current(c, e.generation) && c.routes.loads != map[] then [NavigationReply(e.requestId, false)] else [];
    var (d, frames) := NavigationArrives(c, e.generation, e.requestId, e.route, valid);
    AbsorbScripted(x, PopGui(s), d, frames, more, y);
  }

  lemma DeliverScripted(x: Told, valid: bool, outcome: StartOutcome, y: Told)
    requires Scripted(x) && Inv(x.system) && Inv(y.system) && x.system.gui.life.phase == Running && x.system.toGui != []
    requires !x.system.toGui[0].NavigationRequested? && y.system == Deliver(PopGui(x.system), x.system.toGui[0], valid, outcome)
    requires y.delivered == x.delivered && y.causes == x.causes && y.system.gui.life.generation == x.system.gui.life.generation
    ensures Scripted(y)
  {
    hide Inv, RouteResponseArrives, CommandFinishes, ThreadFinishes, ShutdownFinishes, FailClosed, Tells, Scripted, Absorb, InFlight,
         NavigationArrives, Script;
    var (s, t, c) := (x.system, PopGui(x.system), x.system.gui);
    var front := x.delivered + SendMessages(s.toIo);
    GuiFacts(s);
    LastSaid(x);
    SameTells(front, c);
    EndTells(front, c, s.toGui[0].generation, outcome);
    AbsorbedLife(t);
    NoCause();
    match s.toGui[0]
    case NavigationRequested(_, _, _) =>
    case RouteLoadResponse(generation, loadId, ok, route) =>
      RouteResponseTells(front, c, generation, loadId, ok, route);
      var (d, frames) := RouteResponseArrives(c, generation, loadId, ok, route);
      var matches := generation == c.life.generation && ok && loadId in s.requested && s.requested[loadId] == route;
      var t' := t.(answered := if matches then s.answered + {loadId} else s.answered);
      AbsorbedLife(t');
      AbsorbScripted(x, t', d, frames, [], y);
    case CapabilityRequested(authority, generation, requestId) =>
      AbsorbScripted(x, t, c, CapabilityArrives(c, authority, generation, requestId).1, [], y);
    case CommandFinished(generation, commandId, success, published, error) =>
      FinishTells(front, c, generation, commandId, success, published, error);
      var (d, frames) := CommandFinishes(c, generation, commandId, success, published, error);
      AbsorbScripted(x, t, d, frames, [], y);
    case SessionFailed(generation, error) =>
      FailTells(front, c, c, error, []);
      AbsorbScripted(x, t, SessionFailureArrives(c, generation, error), [], [], y);
    case PostedFailure(generation, error) =>
      FailTells(front, c, c, error, []);
      AbsorbScripted(x, t, SessionFailureArrives(c, generation, error), [], [], y);
    case ShutdownFinished(generation) =>
      AbsorbScripted(x, t, ShutdownFinishes(c, generation), [], [], y);
    case ThreadFinished(generation) =>
      AbsorbScripted(x, t, ThreadFinishes(c, generation, outcome), [], [], y);
  }

  lemma NoCause()
    ensures Script([]) == []
  {}

  lemma GuiFacts(s: System)
    requires Inv(s)
    ensures s.gui == Flushed(s.gui) && (s.gui.life.phase == Running ==> s.gui.life.hasIo) && s.gui.life.cleanupFinal != Running
  {}

  lemma AbsorbedLife(s: System)
    ensures forall d, frames :: Absorb(s, d, frames).gui.life == d.life && Absorb(s, d, frames).gui.queue == d.queue
  {}

  lemma EndTells(front: seq<Message>, c: Gui, generation: nat, outcome: StartOutcome)
    requires c.life.phase == Running && c.life.cleanupFinal != Running && InFlight(front, c)
    ensures Tells(front, c, ShutdownFinishes(c, generation), []) && Tells(front, c, ThreadFinishes(c, generation, outcome), [])
  {
    SameTells(front, c);
  }

  lemma ArrivalTells(front: seq<Message>, c: Gui, generation: nat, requestId: string, route: string, valid: bool)
    requires InFlight(front, c)
    ensures Tells(front, c, NavigationArrives(c, generation, requestId, route, valid).0,
                  if Current(c, generation) && c.routes.loads != map[] then [NavigationReply(requestId, false)] else [])
  {
    hide ReplyAndResume;
    SameTells(front, c);
    ReplyTells(front, c, requestId, valid);
  }

  lemma ReturnScripted(x: Told, navigation: Navigation, use: bool, valid: bool, loadValid: bool, y: Told)
    requires Scripted(x) && Inv(x.system) && Inv(y.system) && x.system.gui.life.phase == Running && x.system.frames != []
    requires var f := x.system.frames[|x.system.frames| - 1];
      && y.system == Return(PopFrame(x.system), f, navigation, use, valid, loadValid)
      && y.causes == x.causes + CausedByReturn(x.system.gui, f, navigation, valid)
    requires y.delivered == x.delivered && y.system.gui.life.generation == x.system.gui.life.generation
    ensures Scripted(y)
  {
    hide Inv, NavigationReturns, CapabilityObserved, PumpAndResume, ResumeIoPolling, Tells, Scripted, Absorb, InFlight, Script, Adds;
    var (s, t, c) := (x.system, PopFrame(x.system), x.system.gui);
    var f := s.frames[|s.frames| - 1];
    var front := x.delivered + SendMessages(s.toIo);
    GuiFacts(s);
    LastSaid(x);
    AbsorbedLife(t);
    NoCause();
    SameTells(front, c);
    var more := CausedByReturn(c, f, navigation, valid);
    match f
    case Navigating(generation, requestId, route) =>
      NavigationTells(front, c, f, navigation, valid, loadValid);
      AbsorbScripted(x, t, NavigationReturns(c, generation, requestId, route, navigation, valid, loadValid), [], more, y);
    case Acknowledging(generation) =>
      ResumesTells(front, c, false);
      AbsorbScripted(x, t, AcknowledgementReturns(c, generation), [], more, y);
    case ObservingCapability(authority, generation, requestId) =>
      FrameIsGenuine(s);
      BindingFacts(s);
      ObservedTells(front, c, f, use, valid);
      AbsorbScripted(x, t, CapabilityObserved(c, authority, generation, requestId, use, valid), [], more, y);
    case ReportingSent(generation, resume) =>
      ResumesTells(front, c, resume);
      AbsorbScripted(x, t, SentReportReturns(c, generation, resume), [], more, y);
  }

  lemma ResumesTells(front: seq<Message>, c: Gui, resume: bool)
    requires InFlight(front, c) && c.life.phase == Running
    ensures Tells(front, c, ResumeIoPolling(c), []) && Tells(front, c, PumpAndResume(c, resume), [])
  {
    ResumeAdds(front, c);
    PumpAndResumeTells(front, c, resume);
  }

  lemma BindingFacts(s: System)
    requires Inv(s) && s.gui.life.phase == Running
    ensures s.io.Some? && Bound(s.gui, s.io.value.authority)
    ensures forall d <- s.outstanding :: d.generation == s.gui.life.generation ==>
                                           d.requestId == s.gui.slot.activeRequest && s.io.value.authority == Some(d.authority)
    ensures forall d <- s.outstanding :: d.generation == s.gui.life.generation ==> s.gui.slot.activeRequest != ""
  {
    hide Lively, Polling, Sending, Loading, InTransit;
    forall d | d in s.outstanding && d.generation == s.gui.life.generation ensures s.gui.slot.activeRequest != "" {
      var i :| 0 <= i < |s.outstanding| && s.outstanding[i] == d;
      CountPositive(s.outstanding, i, DispatchOf(s.gui.life.generation));
    }
  }

  lemma CompletionTells(s: System, front: seq<Message>, i: nat, hasUse: bool, result: BrokerResult, valid: bool)
    requires Inv(s) && s.gui.life.phase == Running && InFlight(front, s.gui) && i < |s.outstanding|
    ensures Tells(front, s.gui, SubmitCapabilityCompletion(s.gui, s.outstanding[i], hasUse, result, valid).0,
                  Script(Caused(s, CompleteDispatch(i, hasUse, result, valid))))
  {
    hide Inv, Tells, InFlight, QueueCapabilityResponse, Script;
    var c, d := s.gui, s.outstanding[i];
    assert d in s.outstanding;
    BindingFacts(s);
    SameTells(front, c);
    NoCause();
    OneCause(RuntimeAnswered(d.requestId, result));
    ResponseTells(front, c, Some(d.authority), true, d.generation, d.requestId, result, true, valid);
  }

  lemma CallScripted(x: Told, a: Action, y: Told)
    requires Scripted(x) && Inv(x.system) && Inv(y.system) && x.system.gui.life.phase == Running
    requires a.CallRequestRouteLoad? || a.CallSendVisibility? || a.CompleteDispatch?
    requires y.system == Next(x.system, a) && y.delivered == x.delivered && y.causes == x.causes + Caused(x.system, a)
    requires y.system.gui.life.generation == x.system.gui.life.generation
    ensures Scripted(y)
  {
    hide Inv, Enqueue, EnqueueRouteLoad, SubmitCapabilityCompletion, Tells, Scripted, Absorb, InFlight, Script;
    var (s, c) := (x.system, x.system.gui);
    var front := x.delivered + SendMessages(s.toIo);
    GuiFacts(s);
    LastSaid(x);
    AbsorbedLife(s);
    NoCause();
    SameTells(front, c);
    match a
    case CallRequestRouteLoad(route, valid) =>
      OneCause(RouteAsked(c.routes.nextLoad + 1, route));
      LoadTells(front, c, route, valid);
      AbsorbScripted(x, s, EnqueueRouteLoad(c, route, valid).0, [], Caused(s, a), y);
    case CallSendVisibility(visible) =>
      OneCause(VisibilitySet(visible));
      VisibilityTells(front, c, visible);
      AbsorbScripted(x, s, EnqueueMessage(c, VisibilityChanged(visible), false).0, [], Caused(s, a), y);
    case CompleteDispatch(i, hasUse, result, valid) =>
      if i < |s.outstanding| {
        CompletionTells(s, front, i, hasUse, result, valid);
        AbsorbedLife(Completed(s, i));
        AbsorbScripted(x, Completed(s, i), SubmitCapabilityCompletion(c, s.outstanding[i], hasUse, result, valid).0, [],
                       Caused(s, a), y);
      } else {
        SameScripted(x, y);
      }
  }

  /** The slot of the capability runtime has no part in what is said. */
  lemma SameScripted(x: Told, y: Told)
    requires Scripted(x) && y.delivered == x.delivered && y.causes == x.causes
    requires y.system.toIo == x.system.toIo && y.system.gui.queue == x.system.gui.queue && y.system.gui.out == x.system.gui.out
    requires y.system.gui.life.phase == Running ==> x.system.gui.life.phase == Running
    ensures Scripted(y)
  {}

  lemma OtherScripted(x: Told, a: Action, y: Told)
    requires Scripted(x) && Inv(x.system) && Inv(y.system) && x.system.gui.life.phase == Running
    requires a.CallShutdown? || a.CallAttach? || a.CallUnbind? || a.DestroyRuntime?
    requires y.system == Next(x.system, a) && y.delivered == x.delivered && y.causes == x.causes
    requires y.system.gui.life.generation == x.system.gui.life.generation
    ensures Scripted(y)
  {
    hide Scripted, RunningInv;
    assert x.system.toIo + [] == x.system.toIo;
    if y.system.gui.life.phase == Running { SameScripted(x, y); } else { DownScripted(y); }
  }

  lemma DownScripted(x: Told)
    requires x.system.gui.life.phase != Running
    ensures Scripted(x)
  {}

  /** What the agent takes moves from the queue to what was delivered. */
  lemma AgentScripted(x: Told, a: Action, y: Told)
    requires Scripted(x) && !OnGuiThread(a)
    requires y.system == Next(x.system, a) && y.delivered == x.delivered + Delivered(x.system, a) && y.causes == x.causes
    ensures Scripted(y)
  {
    hide Start, NextIo, SendMessages;
    IoKeepsGui(x.system, a);
    AgentTakes(x.system, a);
    var (before, after) := (x.system.toIo, y.system.toIo);
    var taken := Delivered(x.system, a);
    assert x.delivered + taken + SendMessages(after) == x.delivered + (taken + SendMessages(after));
  }

  lemma AgentTakes(s: System, a: Action)
    requires !OnGuiThread(a)
    ensures SendMessages(s.toIo) == Delivered(s, a) + SendMessages(Next(s, a).toIo)
  {
    hide Start, SendCommand, ResumeIo, BeginIoShutdown, AbortIo, PollSession, SendDeadlineFires, ShutdownDeadlineFires, CompleteSend,
         CompleteShutdownSend;
    if a.DeliverToIo? && s.io.Some? && s.io.value.started && s.toIo != [] {
      assert s.toIo == s.toIo[..1] + s.toIo[1..];
      SendsAppend(s.toIo[..1], s.toIo[1..]);
    }
  }

  lemma RenewedScripted(x: Told, a: Action)
    requires Inv(x.system) && Inv(Next(x.system, a)) && Next(x.system, a).gui.life.generation != x.system.gui.life.generation
    ensures Scripted(Follow(x, a))
  {
    hide Inv, Deliver, Return, Shutdown, RequestRouteLoad, SendVisibilityChanged, SubmitCapabilityCompletion, UnbindCapabilityRuntime,
         NextIo, AbsorbIo, Start, Attach;
    var t := Next(x.system, a);
    GuiFacts(t);
    NextStaysDown(x.system, a);
    RenewalEmpties(x.system, a);
  }

  lemma RenewalEmpties(s: System, a: Action)
    requires Next(s, a).gui.life.generation != s.gui.life.generation
    ensures Next(s, a).toIo == [] && forall f <- Next(s, a).frames :: f in s.frames
  {
    hide Shutdown, RequestRouteLoad, SendVisibilityChanged, SubmitCapabilityCompletion, UnbindCapabilityRuntime, NextIo, AbsorbIo, Start,
         Attach, NavigationArrives, RouteResponseArrives, CommandFinishes, SessionFailureArrives, ShutdownFinishes, ThreadFinishes,
         NavigationReturns, AcknowledgementReturns, CapabilityObserved, SentReportReturns;
    if !OnGuiThread(a) { IoKeepsGui(s, a); }
  }

  lemma FollowScripted(x: Told, a: Action)
    requires Scripted(x) && Inv(x.system)
    ensures Scripted(Follow(x, a))
  {
    hide Inv, Scripted, Deliver, Return, Shutdown, Attach, RequestRouteLoad, SendVisibilityChanged, SubmitCapabilityCompletion,
         UnbindCapabilityRuntime, NextIo, Absorb, AbsorbIo, Start;
    var (s, y) := (x.system, Follow(x, a));
    NextInv(s, a);
    NextStaysDown(s, a);
    if y.system.gui.life.generation != s.gui.life.generation {
      RenewedScripted(x, a);
    } else if y.system.gui.life.phase != Running {
      DownScripted(y);
    } else if !OnGuiThread(a) {
      AgentScripted(x, a, y);
    } else {
      match a
      case DeliverToGui(valid, outcome) =>
        if s.toGui == [] { SameScripted(x, y); }
        else if s.toGui[0].NavigationRequested? { RequestScripted(x, valid, outcome, y); }
        else { DeliverScripted(x, valid, outcome, y); }
      case ReturnFromObserver(navigation, use, valid, loadValid) =>
        if s.frames == [] { SameScripted(x, y); } else { ReturnScripted(x, navigation, use, valid, loadValid, y); }
      case CallRequestRouteLoad(_, _) => CallScripted(x, a, y);
      case CallSendVisibility(_) => CallScripted(x, a, y);
      case CompleteDispatch(_, _, _, _) => CallScripted(x, a, y);
      case _ => OtherScripted(x, a, y);
    }
  }

  lemma LoadTells(front: seq<Message>, c: Gui, route: string, valid: bool)
    requires InFlight(front, c) && c.life.phase == Running
    ensures Tells(front, c, EnqueueRouteLoad(c, route, valid).0,
                  if valid && CanLoad(c, route) && Room(c, 1) then [RouteLoad(c.routes.nextLoad + 1, route)] else [])
  {
    RouteLoadTells(front, c, route, valid);
  }

  lemma VisibilityTells(front: seq<Message>, c: Gui, visible: bool)
    requires InFlight(front, c) && c.life.phase == Running
    ensures Tells(front, c, EnqueueMessage(c, VisibilityChanged(visible), false).0,
                  if Room(c, 1) then [VisibilityChanged(visible)] else [])
  {
    hide Enqueue;
    SameTells(front, c);
    EnqueueAdds(front, c, PlainCommand(VisibilityChanged(visible), false));
  }

  // ---- Every request is answered once -------------------------------------------------------------

  predicate Accounted(x: Told, r: Request) {
    x.system.gui.life.phase == Running ==> Answered(x, r)
  }

  lemma AbsorbedFrames(s: System, d: Gui, frames: seq<Frame>, p: Frame -> bool)
    requires Absorb(s, d, frames).gui.life.generation == s.gui.life.generation
    ensures Count(Absorb(s, d, frames).frames, p) == Count(s.frames, p) + Count(frames, p)
  {
    CountAppend(s.frames, frames, p);
  }

  lemma QuietFrames(c: Gui, e: GuiEvent, p: Frame -> bool)
    requires forall f :: p(f) ==> f.Navigating?
    ensures e.RouteLoadResponse? ==> Count(RouteResponseArrives(c, e.generation, e.loadId, e.ok, e.route).1, p) == 0
    ensures e.CommandFinished? ==>
              Count(CommandFinishes(c, e.generation, e.commandId, e.success, e.published, e.error).1, p) == 0
    ensures e.CapabilityRequested? ==> Count(CapabilityArrives(c, e.authority, e.generation, e.requestId).1, p) == 0
    ensures e.CapabilityRequested? ==> CapabilityArrives(c, e.authority, e.generation, e.requestId).0 == c
  {
    hide FailClosed, PumpAndResume, ResumeIoPolling;
  }

  lemma QuietDelivery(s: System, valid: bool, outcome: StartOutcome, p: Frame -> bool)
    requires s.toGui != [] && !s.toGui[0].NavigationRequested? && forall f :: p(f) ==> f.Navigating?
    requires Deliver(PopGui(s), s.toGui[0], valid, outcome).gui.life.generation == s.gui.life.generation
    ensures Count(Deliver(PopGui(s), s.toGui[0], valid, outcome).frames, p) == Count(s.frames, p)
  {
    hide CommandFinishes, RouteResponseArrives, ThreadFinishes, ShutdownFinishes, SessionFailureArrives, Absorb, CapabilityArrives;
    var (c, t) := (s.gui, PopGui(s));
    QuietFrames(c, s.toGui[0], p);
    match s.toGui[0]
    case NavigationRequested(_, _, _) =>
    case RouteLoadResponse(generation, loadId, ok, route) =>
      var (d, frames) := RouteResponseArrives(c, generation, loadId, ok, route);
      var matches := generation == c.life.generation && ok && loadId in s.requested && s.requested[loadId] == route;
      var t' := t.(answered := if matches then s.answered + {loadId} else s.answered);
      AbsorbedFrames(t', d, frames, p);
    case CapabilityRequested(authority, generation, requestId) =>
      var (d, frames) := CapabilityArrives(c, authority, generation, requestId);
      AbsorbedFrames(t, d, frames, p);
    case CommandFinished(generation, commandId, success, published, error) =>
      var (d, frames) := CommandFinishes(c, generation, commandId, success, published, error);
      AbsorbedFrames(t, d, frames, p);
    case SessionFailed(generation, error) => AbsorbedFrames(t, SessionFailureArrives(c, generation, error), [], p);
    case PostedFailure(generation, error) => AbsorbedFrames(t, SessionFailureArrives(c, generation, error), [], p);
    case ShutdownFinished(generation) => AbsorbedFrames(t, ShutdownFinishes(c, generation), [], p);
    case ThreadFinished(generation) => AbsorbedFrames(t, ThreadFinishes(c, generation, outcome), [], p);
  }

  lemma DeliveryFollows(s: System, valid: bool, outcome: StartOutcome, r: Request)
    requires s.toGui != [] && s.gui.life.phase == Running
    requires var t := Deliver(PopGui(s), s.toGui[0], valid, outcome).gui.life;
      t.phase == Running && t.generation == s.gui.life.generation
    ensures var (p, a) := (Asks(s.gui.life.generation, r), DeliverToGui(valid, outcome));
      Count(Deliver(PopGui(s), s.toGui[0], valid, outcome).frames, p) + Count(Caused(s, a), Answers(r))
      == Count(s.frames, p) + Count(Taken(s, a), Is(r))
  {
    hide Deliver, Caused, Taken;
    RequestsTaken(s, valid, outcome, r);
    if s.toGui[0].NavigationRequested? {
      RequestFrames(s, valid, outcome, Asks(s.gui.life.generation, r));
    } else {
      QuietDelivery(s, valid, outcome, Asks(s.gui.life.generation, r));
    }
  }

  lemma RequestsTaken(s: System, valid: bool, outcome: StartOutcome, r: Request)
    requires s.toGui != [] && s.gui.life.phase == Running
    ensures var (e, a) := (s.toGui[0], DeliverToGui(valid, outcome));
      var takes := e.NavigationRequested? && Current(s.gui, e.generation) && Request(e.requestId, e.route) == r;
      && Count(Taken(s, a), Is(r)) == (if takes then 1 else 0)
      && Count(Caused(s, a), Answers(r)) == (if takes && s.gui.routes.loads != map[] then 1 else 0)
  {}

  lemma RequestFrames(s: System, valid: bool, outcome: StartOutcome, p: Frame -> bool)
    requires s.toGui != [] && s.toGui[0].NavigationRequested?
    requires Deliver(PopGui(s), s.toGui[0], valid, outcome).gui.life.generation == s.gui.life.generation
    ensures var e := s.toGui[0];
      Count(Deliver(PopGui(s), e, valid, outcome).frames, p)
      == Count(s.frames, p) + if Current(s.gui, e.generation) && s.gui.routes.loads == map[]
                                 && p(Navigating(e.generation, e.requestId, e.route)) then 1 else 0
  {
    hide ReplyAndResume, Absorb;
    var e := s.toGui[0];
    var (d, frames) := NavigationArrives(s.gui, e.generation, e.requestId, e.route, valid);
    AbsorbedFrames(PopGui(s), d, frames, p);
  }

  lemma ReturnFollows(s: System, navigation: Navigation, use: bool, valid: bool, loadValid: bool, r: Request)
    requires s.frames != [] && s.gui.life.phase == Running
    requires var t := Return(PopFrame(s), s.frames[|s.frames| - 1], navigation, use, valid, loadValid).gui.life;
      t.phase == Running && t.generation == s.gui.life.generation
    ensures var (p, a) := (Asks(s.gui.life.generation, r), ReturnFromObserver(navigation, use, valid, loadValid));
      Count(Return(PopFrame(s), s.frames[|s.frames| - 1], navigation, use, valid, loadValid).frames, p) + Count(Caused(s, a), Answers(r))
      == Count(s.frames, p)
  {
    hide NavigationReturns, AcknowledgementReturns, CapabilityObserved, SentReportReturns, Absorb;
    var (c, t, p) := (s.gui, PopFrame(s), Asks(s.gui.life.generation, r));
    var f := s.frames[|s.frames| - 1];
    assert s.frames == t.frames + [f];
    CountSnoc(t.frames, f, p);
    AbsorbedLife(t);
    match f
    case Navigating(generation, requestId, route) =>
      AbsorbedFrames(t, NavigationReturns(c, generation, requestId, route, navigation, valid, loadValid), [], p);
    case Acknowledging(generation) => AbsorbedFrames(t, AcknowledgementReturns(c, generation), [], p);
    case ObservingCapability(authority, generation, requestId) =>
      AbsorbedFrames(t, CapabilityObserved(c, authority, generation, requestId, use, valid), [], p);
    case ReportingSent(generation, resume) => AbsorbedFrames(t, SentReportReturns(c, generation, resume), [], p);
  }

  lemma OthersFollow(s: System, a: Action, r: Request)
    requires !a.DeliverToGui? && !a.ReturnFromObserver?
    requires Next(s, a).gui.life.generation == s.gui.life.generation
    ensures Next(s, a).frames == s.frames && Count(Caused(s, a), Answers(r)) == 0 && Taken(s, a) == []
  {
    hide Shutdown, Attach, RequestRouteLoad, SendVisibilityChanged, SubmitCapabilityCompletion, UnbindCapabilityRuntime, Start;
    if !OnGuiThread(a) { AgentKeepsFrames(s, a); }
  }

  lemma AgentKeepsFrames(s: System, a: Action)
    requires !OnGuiThread(a)
    ensures Next(s, a).frames == s.frames
  {
    hide Start, SendCommand, ResumeIo, BeginIoShutdown, AbortIo, PollSession, SendDeadlineFires, ShutdownDeadlineFires, CompleteSend,
         CompleteShutdownSend;
  }

  lemma FollowAccounted(x: Told, a: Action, r: Request)
    requires Inv(x.system) && Accounted(x, r)
    ensures Accounted(Follow(x, a), r)
  {
    hide Inv, Caused, Taken, Deliver, Return, Shutdown, Attach, RequestRouteLoad, SendVisibilityChanged, SubmitCapabilityCompletion,
         UnbindCapabilityRuntime, NextIo, Start, Absorb, AbsorbIo;
    var (s, t) := (x.system, Next(x.system, a));
    NextInv(s, a);
    NextStaysDown(s, a);
    if t.gui.life.phase == Running {
      if t.gui.life.generation == s.gui.life.generation {
        FramesFollow(s, a, r);
        CountAppend(x.causes, Caused(s, a), Answers(r));
        CountAppend(x.asked, Taken(s, a), Is(r));
      } else {
        NoFrames(s, a, r);
      }
    }
  }

  /** Activations of an older session ask nothing of a new one. */
  lemma NoFrames(s: System, a: Action, r: Request)
    requires Inv(s) && Next(s, a).gui.life.generation > s.gui.life.generation
    ensures Count(Next(s, a).frames, Asks(Next(s, a).gui.life.generation, r)) == 0
  {
    hide Next, RunningInv;
    RenewalEmpties(s, a);
    CountZero(Next(s, a).frames, Asks(Next(s, a).gui.life.generation, r));
  }

  /** What a step does to the activations that still owe a request its answer. */
  lemma FramesFollow(s: System, a: Action, r: Request)
    requires Inv(s) && Current(s.gui, s.gui.life.generation)
    requires var t := Next(s, a).gui.life; t.phase == Running && t.generation == s.gui.life.generation
    ensures var p := Asks(s.gui.life.generation, r);
      Count(Next(s, a).frames, p) + Count(Caused(s, a), Answers(r)) == Count(s.frames, p) + Count(Taken(s, a), Is(r))
  {
    hide Inv, Shutdown, Attach, RequestRouteLoad, SendVisibilityChanged, SubmitCapabilityCompletion, UnbindCapabilityRuntime, NextIo,
         Start, CommandFinishes, RouteResponseArrives, ReplyAndResume, ThreadFinishes, ShutdownFinishes, SessionFailureArrives;
    match a
    case DeliverToGui(valid, outcome) => if s.toGui != [] { DeliveryFollows(s, valid, outcome, r); }
    case ReturnFromObserver(navigation, use, valid, loadValid) =>
      if s.frames != [] { ReturnFollows(s, navigation, use, valid, loadValid, r); }
    case _ => OthersFollow(s, a, r);
  }

  // ---- Theorems -----------------------------------------------------------------------------------

  lemma {:induction false} FollowAll(x: Told, actions: seq<Action>)
    requires Inv(x.system) && Scripted(x) && forall r: Request :: Accounted(x, r)
    ensures var y := Iterate(Follow, x, actions);
      y.system == Run(x.system, actions) && Inv(y.system) && Scripted(y) && forall r: Request :: Accounted(y, r)
    decreases actions
  {
    hide Inv, Scripted, Accounted, Next, Caused, Taken, Delivered;
    if actions != [] {
      NextInv(x.system, actions[0]);
      FollowScripted(x, actions[0]);
      forall r: Request ensures Accounted(Follow(x, actions[0]), r) { FollowAccounted(x, actions[0], r); }
      FollowAll(Follow(x, actions[0]), actions[1..]);
    }
  }

  lemma ListenInv(actions: seq<Action>)
    ensures var x := Listen(actions);
      x.system == Run(InitialSystem, actions) && Inv(x.system) && Scripted(x) && forall r: Request :: Accounted(x, r)
  {
    InitialInv();
    FollowAll(Told(InitialSystem, [], [], []), actions);
  }

  /**
   On every run, while the session runs: the messages delivered to the agent, on their
   way and queued are exactly what the causes recorded so far call for, in their order,
   and the message in flight is the last one that has left the queue.
   */
  lemma WorkerIsToldExactly(actions: seq<Action>)
    ensures var x := Listen(actions);
      && x.system == Run(InitialSystem, actions)
      && (x.system.gui.life.phase == Running ==>
            && Said(x) == Script(x.causes)
            && (x.system.gui.queue.active.Some? ==>
                  LastIs(x.delivered + SendMessages(x.system.toIo), x.system.gui.queue.active.value.message)))
  {
    ListenInv(actions);
    hide Run, Listen, Follow;
    var c := Listen(actions).system.gui;
    GuiFacts(Listen(actions).system);
    Quiet(c);
    assert forall front: seq<Message> :: front + [] == front;
  }

  /** Every message is part of what one cause calls for, which stands there as a whole. */
  lemma {:induction false} ScriptAt(causes: seq<Cause>, k: nat) returns (j: nat, start: nat)
    requires k < |Script(causes)|
    ensures j < |causes| && start <= k < start + |Answer(causes[j])| <= |Script(causes)|
    ensures Script(causes)[start..start + |Answer(causes[j])|] == Answer(causes[j])
    decreases causes
  {
    var front, last := causes[..|causes| - 1], causes[|causes| - 1];
    if k < |Script(front)| {
      j, start := ScriptAt(front, k);
      assert front[j] == causes[j];
      var end := start + |Answer(causes[j])|;
      assert Script(causes)[start..end] == Script(front)[start..end];
    } else {
      j, start := |causes| - 1, |Script(front)|;
    }
  }

  /** The cause accounts for the reply at `k`: same request, the callback's verdict, and the load right behind it. */
  predicate Explains(said: seq<Message>, k: nat, cause: Cause)
    requires k < |said| && said[k].NavigationReply?
  {
    && (cause.TurnedAway? || cause.Decided?) && cause.request.id == said[k].requestId
    && (said[k].accepted <==> cause.Decided? && cause.accepted)
    && (said[k].accepted ==> k + 1 < |said| && said[k + 1] == RouteLoad(cause.loadId, cause.request.route))
  }

  lemma ReplyExplained(causes: seq<Cause>, k: nat) returns (j: nat)
    requires k < |Script(causes)| && Script(causes)[k].NavigationReply?
    ensures j < |causes| && Explains(Script(causes), k, causes[j])
  {
    var start;
    j, start := ScriptAt(causes, k);
    hide Script;
    var said, answer := Script(causes), Answer(causes[j]);
    assert forall i :: 0 <= i < |answer| ==> answer[i] == said[start..start + |answer|][i] == said[start + i];
    assert answer[k - start] == said[k];
  }

  /**
   Whatever navigation reply is queued, in flight or delivered answers a request of this
   session; it accepts exactly if the request's callback did, and then the load of that
   request's route stands directly behind it.
   */
  lemma NavigationIsAnsweredAsDecided(actions: seq<Action>, k: nat)
    requires Listen(actions).system.gui.life.phase == Running
    requires k < |Said(Listen(actions))| && Said(Listen(actions))[k].NavigationReply?
    ensures var x := Listen(actions);
      exists j :: 0 <= j < |x.causes| && Explains(Said(x), k, x.causes[j]) && x.causes[j].request in x.asked
  {
    ListenInv(actions);
    var x := Listen(actions);
    hide Listen, Inv, Said, Script, Explains;
    assert Said(x) == Script(x.causes);
    var j := ReplyExplained(x.causes, k);
    ExplainsFacts(Script(x.causes), k, x.causes[j]);
    assert Accounted(x, x.causes[j].request);
    WasAsked(x, j);
  }

  lemma ExplainsFacts(said: seq<Message>, k: nat, cause: Cause)
    requires k < |said| && said[k].NavigationReply? && Explains(said, k, cause)
    ensures cause.TurnedAway? || cause.Decided?
  {}

  lemma WasAsked(x: Told, j: nat)
    requires j < |x.causes| && (x.causes[j].TurnedAway? || x.causes[j].Decided?)
    requires Answered(x, x.causes[j].request)
    ensures x.causes[j].request in x.asked
  {
    var r := x.causes[j].request;
    CountPositive(x.causes, j, Answers(r));
    CountZero(x.asked, Is(r));
  }

  /** Every request the session took up has been answered once, or its callback has not returned yet. */
  lemma EveryRequestIsAnsweredOnce(actions: seq<Action>, r: Request)
    requires Listen(actions).system.gui.life.phase == Running
    ensures Answered(Listen(actions), r)
  {
    ListenInv(actions);
    assert Accounted(Listen(actions), r);
  }

  /** The calls report truthfully whether the worker will be told. */
  lemma CallsReportTruthfully(s: System, route: string, visible: bool, i: nat, hasUse: bool, result: BrokerResult, valid: bool)
    requires Inv(s)
    ensures RequestRouteLoad(s.gui, route, valid).1 <==> Caused(s, CallRequestRouteLoad(route, valid)) != []
    ensures SendVisibilityChanged(s.gui, visible).1 <==> Caused(s, CallSendVisibility(visible)) != []
    ensures i < |s.outstanding| ==>
              (SubmitCapabilityCompletion(s.gui, s.outstanding[i], hasUse, result, valid).1
               <==> Caused(s, CompleteDispatch(i, hasUse, result, valid)) != [])
  {
    hide Enqueue, Inv;
    if s.gui.life.phase == Running {
      BindingFacts(s);
      if i < |s.outstanding| { assert s.outstanding[i] in s.outstanding; }
    }
  }
}
