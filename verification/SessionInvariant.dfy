/** Every step of the composed worker session keeps its invariant. */
module SessionInvariant {
  import opened Common
  import opened SessionTypes
  import opened SessionController
  import opened SessionIo
  import opened SessionSystem

  /** A step that only queues calls for the IO thread changes nothing else around the controller. */
  lemma AbsorbPosts(s: System, c: Gui)
    requires c.life.generation == s.gui.life.generation && c.life.hasIo && s.io.Some?
    requires c.out.selfPosted == [] && c.out.dispatched == []
    requires forall id <- c.routes.loads :: id in s.requested && s.requested[id] == c.routes.loads[id]
    ensures Absorb(s, c, []) == s.(gui := Flushed(c), toIo := s.toIo + c.out.posted)
  {
    assert s.toGui + [] == s.toGui && s.frames + [] == s.frames && s.outstanding + [] == s.outstanding;
    assert s.requested + c.routes.loads == s.requested;
  }

  // ---- Leaving and entering the running phase --------------------------------------

  /** Outside a running session only the shape is claimed. */
  lemma IdleInv(s: System, c: Gui)
    requires Shape(s) && c.life.phase != Running && c.life.generation >= s.gui.life.generation
    requires c.life.hasIo ==> s.gui.life.hasIo && c.life.generation == s.gui.life.generation
    requires (c.life.pendingSession ==> c.life.hasIo) && (c.life.cleanupFinal == Detached || c.life.cleanupFinal == Failed)
    requires forall e <- c.out.posted :: e.generation == c.life.generation
    requires forall e <- c.out.selfPosted :: e.generation <= c.life.generation
    requires c.out.dispatched == []
    ensures Inv(Absorb(s, c, []))
  {}

  lemma FailInv(s: System, c: Gui, error: Error)
    requires Shape(s) && c.life.generation == s.gui.life.generation && c.life.hasIo == s.gui.life.hasIo
    requires (c.life.pendingSession ==> c.life.hasIo) && (c.life.cleanupFinal == Detached || c.life.cleanupFinal == Failed)
    requires forall e <- c.out.posted :: e.generation == c.life.generation
    requires forall e <- c.out.selfPosted :: e.generation <= c.life.generation
    requires c.out.dispatched == []
    ensures Inv(Absorb(s, FailClosed(c, error), []))
  {
    hide Absorb, Inv;
    IdleInv(s, FailClosed(c, error));
  }

  /** A session that has just started satisfies the invariant whatever older sessions left behind. */
  lemma StartInv(s: System, c: Gui, authority: Option<Authority>, outcome: StartOutcome)
    requires Shape(s) && !c.life.hasIo && c.life.generation == s.gui.life.generation && c.life.phase != Running
    requires c.out.posted == [] && c.out.selfPosted == [] && c.out.dispatched == [] && !c.life.pendingSession
    requires c.life.cleanupFinal == Detached || c.life.cleanupFinal == Failed
    ensures Inv(Absorb(s, StartSession(c, authority, outcome).0, []))
  {
    var (d, ok) := StartSession(c, authority, outcome);
    if ok {
      var t, g := Absorb(s, d, []), d.life.generation;
      CountZero(t.toGui, AwaitedEvent(g));
      CountZero(t.toGui, FinishedEvent(g));
      CountZero(t.frames, AwaitedFrame(g));
      CountZero(t.outstanding, DispatchOf(g));
    } else {
      IdleInv(s, d);
    }
  }

  // ---- Queuing and sending a command -----------------------------------------------

  /** The queue with `command` at its end, under the next id. */
  function Appended(q: Queue, command: Command): Queue {
    q.(nextCommand := q.nextCommand + 1, outbound := q.outbound + [command.(id := q.nextCommand + 1)])
  }

  /** The queue after its head has been taken into flight. */
  function Pumped(q: Queue): Queue
    requires q.outbound != []
  {
    q.(active := Some(q.outbound[0]), outbound := q.outbound[1..])
  }

  /** A queued command that resumes polling takes up a token held by the step. */
  lemma AppendPolling(g: nat, q: Queue, io: Io, toIo: seq<IoEvent>, toGui: seq<GuiEvent>, frames: seq<Frame>, held: nat,
                      command: Command)
    requires Polling(g, q, io, toIo, toGui, frames, held + if Resuming(command) then 1 else 0)
    requires !(Resuming(command) && Completing(command))
    ensures Polling(g, Appended(q, command), io, toIo, toGui, frames, held)
  {
    CountSnoc(q.outbound, command.(id := q.nextCommand + 1), Resuming);
  }

  lemma AppendSending(g: nat, q: Queue, io: Io, toIo: seq<IoEvent>, toGui: seq<GuiEvent>, base: nat, delivered: seq<nat>,
                      command: Command)
    requires Sending(g, q, io, toIo, toGui, base, delivered) && QueueLength(q) < MaxQueuedCommands
    ensures Sending(g, Appended(q, command), io, toIo, toGui, base, delivered)
  {}

  lemma AppendSingleFlight(g: nat, t: Slot, q: Queue, authority: Option<Authority>, outstanding: seq<Dispatch>,
                           command: Command)
    requires SingleFlight(g, t, q, authority, outstanding) && Admissible(authority, t, command)
    requires Completing(command) ==> Commands(q, Completing) + Count(outstanding, DispatchOf(g)) == 0
                                     && t.activeRequest != ""
    ensures SingleFlight(g, t, Appended(q, command), authority, outstanding)
  {
    CountSnoc(q.outbound, command.(id := q.nextCommand + 1), Completing);
  }

  lemma PumpPolling(g: nat, q: Queue, io: Io, toIo: seq<IoEvent>, toGui: seq<GuiEvent>, frames: seq<Frame>, held: nat)
    requires Polling(g, q, io, toIo, toGui, frames, held) && q.active.None? && q.outbound != []
    ensures Polling(g, Pumped(q), io, toIo + [SendMessage(g, q.outbound[0])], toGui, frames, held)
  {
    CountSnoc(toIo, SendMessage(g, q.outbound[0]), IsResume);
  }

  lemma PumpSending(g: nat, q: Queue, io: Io, toIo: seq<IoEvent>, toGui: seq<GuiEvent>, base: nat, delivered: seq<nat>)
    requires Sending(g, q, io, toIo, toGui, base, delivered) && q.active.None? && q.outbound != []
    ensures Sending(g, Pumped(q), io, toIo + [SendMessage(g, q.outbound[0])], toGui, base, delivered)
  {
    CountSnoc(toIo, SendMessage(g, q.outbound[0]), IsSend);
    CountZero(toIo, IsSend);
    CountZero(toGui, FinishedEvent(g));
  }

  lemma PumpSingleFlight(g: nat, t: Slot, q: Queue, authority: Option<Authority>, outstanding: seq<Dispatch>)
    requires SingleFlight(g, t, q, authority, outstanding) && q.active.None? && q.outbound != []
    ensures SingleFlight(g, t, Pumped(q), authority, outstanding)
  {}

  /** Lively and InTransit only look at what is in the queue to the IO thread. */
  lemma PostKeeps(life: Life, authority: Option<Authority>, io: Io, toIo: seq<IoEvent>, toGui: seq<GuiEvent>,
                  frames: seq<Frame>, e: IoEvent)
    requires Lively(life, io, toIo, toGui) && InTransit(life.generation, authority, toIo, toGui, frames)
    requires e.ResumePolling? || (e.SendMessage? && Authorised(authority, e.command))
    ensures Lively(life, io, toIo + [e], toGui) && InTransit(life.generation, authority, toIo + [e], toGui, frames)
  {}

  lemma PumpInv(s: System, held: nat)
    requires Holds(s, held)
    ensures Holds(Absorb(s, PumpOutbound(s.gui), []), held)
  {
    hide Lively, Polling, Sending, InTransit, Authorised;
    var d, g, q := PumpOutbound(s.gui), s.gui.life.generation, s.gui.queue;
    if s.gui.life.phase == Running {
      AbsorbPosts(s, d);
      if d != s.gui {
        assert q.outbound[0] in q.outbound;
        PostKeeps(s.gui.life, s.io.value.authority, s.io.value, s.toIo, s.toGui, s.frames, SendMessage(g, q.outbound[0]));
        PumpPolling(g, q, s.io.value, s.toIo, s.toGui, s.frames, held);
        PumpSending(g, q, s.io.value, s.toIo, s.toGui, s.base, s.delivered);
        PumpSingleFlight(g, s.gui.slot, q, s.io.value.authority, s.outstanding);
        assert d.out.posted == [SendMessage(g, q.outbound[0])];
      } else {
        assert s.toIo + [] == s.toIo;
      }
    } else {
      IdleInv(s, d);
    }
  }

  predicate Enqueuable(s: System, command: Command)
    requires s.io.Some?
  {
    && QueueLength(s.gui.queue) < MaxQueuedCommands
    && Admissible(s.io.value.authority, s.gui.slot, command) && !(Resuming(command) && Completing(command))
    && (Completing(command) ==>
          Commands(s.gui.queue, Completing) + Count(s.outstanding, DispatchOf(s.gui.life.generation)) == 0
          && s.gui.slot.activeRequest != "")
  }

  lemma EnqueueInv(s: System, command: Command, held: nat)
    requires Holds(s, held + if Resuming(command) then 1 else 0) && s.gui.life.phase == Running && Enqueuable(s, command)
    ensures Holds(Absorb(s, Enqueue(s.gui, command), []), held)
  {
    hide Lively, Polling, Sending, Loading, SingleFlight, InTransit;
    var g, q, io := s.gui.life.generation, s.gui.queue, s.io.value;
    AppendPolling(g, q, io, s.toIo, s.toGui, s.frames, held, command);
    AppendSending(g, q, io, s.toIo, s.toGui, s.base, s.delivered, command);
    AppendSingleFlight(g, s.gui.slot, q, io.authority, s.outstanding, command);
    PumpInv(s.(gui := s.gui.(queue := Appended(q, command))), held);
  }

  lemma ResumePollingInv(g: nat, q: Queue, io: Io, toIo: seq<IoEvent>, toGui: seq<GuiEvent>, frames: seq<Frame>, held: nat,
                         base: nat, delivered: seq<nat>)
    requires Polling(g, q, io, toIo, toGui, frames, held + 1) && Sending(g, q, io, toIo, toGui, base, delivered)
    ensures Polling(g, q, io, toIo + [ResumePolling(g)], toGui, frames, held)
    ensures Sending(g, q, io, toIo + [ResumePolling(g)], toGui, base, delivered)
  {
    CountSnoc(toIo, ResumePolling(g), IsResume);
    CountSnoc(toIo, ResumePolling(g), IsSend);
  }

  /** A token held by the step is handed back to the IO agent. */
  lemma ResumeInv(s: System, held: nat)
    requires Holds(s, held + 1) && s.gui.life.phase == Running
    ensures Holds(Absorb(s, ResumeIoPolling(s.gui), []), held)
  {
    hide Lively, Polling, Sending, InTransit, SingleFlight;
    var g := s.gui.life.generation;
    var e := ResumePolling(g);
    AbsorbPosts(s, ResumeIoPolling(s.gui));
    assert ResumeIoPolling(s.gui).out.posted == [e];
    ResumePollingInv(g, s.gui.queue, s.io.value, s.toIo, s.toGui, s.frames, held, s.base, s.delivered);
    PostKeeps(s.gui.life, s.io.value.authority, s.io.value, s.toIo, s.toGui, s.frames, e);
  }

  lemma PumpAndResumeInv(s: System, resume: bool, held: nat)
    requires Holds(s, held + if resume then 1 else 0) && s.gui.life.phase == Running
    ensures Holds(Absorb(s, PumpAndResume(s.gui, resume), []), held)
  {
    hide Lively, Polling, Sending, InTransit, SingleFlight;
    var pumped := PumpOutbound(s.gui);
    PumpInv(s, held + if resume then 1 else 0);
    if resume {
      var t := Absorb(s, pumped, []);
      AbsorbPosts(s, pumped);
      ResumeInv(t, held);
      AbsorbPosts(t, ResumeIoPolling(t.gui));
      AbsorbPosts(s, ResumeIoPolling(pumped));
      var e := ResumePolling(s.gui.life.generation);
      assert s.toIo + (pumped.out.posted + [e]) == s.toIo + pumped.out.posted + ([] + [e]);
    }
  }

  /** The routes after a load of `route` has been recorded. */
  function Tracked(r: Routes, route: string): Routes {
    var id := r.nextLoad + 1;
    Routes(r.loads[id := route], id, route, false, id)
  }

  /** A new load has an id that was never used. */
  lemma NewLoadIsNew(r: Routes, requested: map<nat, string>, answered: set<nat>)
    requires Loading(r, requested, answered)
    ensures r.nextLoad + 1 !in requested && r.nextLoad + 1 !in r.loads
    ensures forall id <- r.loads :: id in requested && requested[id] == r.loads[id]
    ensures forall id <- requested :: 1 <= id <= r.nextLoad && requested[id] != "" && (id in r.loads || id in answered)
  {}

  lemma TrackRequested(r: Routes, requested: map<nat, string>, route: string)
    requires forall id <- r.loads :: id in requested && requested[id] == r.loads[id]
    ensures requested + Tracked(r, route).loads == requested[r.nextLoad + 1 := route]
  {}

  lemma TrackKnown(r: Routes, requested: map<nat, string>, answered: set<nat>, route: string)
    requires forall id <- r.loads :: id in requested && requested[id] == r.loads[id]
    requires forall id <- requested :: 1 <= id <= r.nextLoad && requested[id] != "" && (id in r.loads || id in answered)
    requires r.nextLoad + 1 !in r.loads && route != ""
    ensures var after, asked := Tracked(r, route), requested[r.nextLoad + 1 := route];
      && (forall id <- after.loads :: id in asked && asked[id] == after.loads[id])
      && (forall id <- asked :: 1 <= id <= after.nextLoad && asked[id] != "" && (id in after.loads || id in answered))
  {}

  lemma TrackSize(r: Routes, route: string)
    requires r.nextLoad + 1 !in r.loads
    ensures |Tracked(r, route).loads| == |r.loads| + 1
  {
    assert Tracked(r, route).loads.Keys == r.loads.Keys + {r.nextLoad + 1};
  }

  /** The newest load is the one that is tracked last. */
  lemma NewestLoading(r: Routes, requested: map<nat, string>, answered: set<nat>)
    requires |r.loads| <= MaxQueuedCommands && r.latestId == r.nextLoad != 0
    requires forall id <- r.loads :: id in requested && requested[id] == r.loads[id]
    requires forall id <- requested :: 1 <= id <= r.nextLoad && requested[id] != "" && (id in r.loads || id in answered)
    requires r.latestId in r.loads && r.latestRoute == r.loads[r.latestId] && !r.latestAcknowledged
    ensures Loading(r, requested, answered)
  {}

  lemma TrackLoading(r: Routes, requested: map<nat, string>, answered: set<nat>, route: string)
    requires Loading(r, requested, answered) && route != "" && |r.loads| < MaxQueuedCommands
    ensures requested + Tracked(r, route).loads == requested[r.nextLoad + 1 := route]
    ensures Loading(Tracked(r, route), requested + Tracked(r, route).loads, answered)
  {
    hide Loading;
    NewLoadIsNew(r, requested, answered);
    TrackRequested(r, requested, route);
    TrackKnown(r, requested, answered, route);
    TrackSize(r, route);
    NewestLoading(Tracked(r, route), requested[r.nextLoad + 1 := route], answered);
  }

  /** The system after the load of `route` has been recorded, before its command is queued. */
  function TrackedSystem(s: System, route: string): System {
    var r := Tracked(s.gui.routes, route);
    s.(gui := s.gui.(routes := r), requested := s.requested + r.loads)
  }

  lemma TrackedInv(s: System, route: string, held: nat)
    requires Holds(s, held) && s.gui.life.phase == Running && route != "" && |s.gui.routes.loads| < MaxQueuedCommands
    ensures Holds(TrackedSystem(s, route), held)
  {
    hide Lively, Polling, Sending, Loading, InTransit, SingleFlight;
    TrackLoading(s.gui.routes, s.requested, s.answered, route);
  }

  lemma AbsorbTracked(s: System, route: string, command: Command)
    ensures var t := TrackedSystem(s, route);
      Absorb(s, Enqueue(t.gui, command), []) == Absorb(t, Enqueue(t.gui, command), [])
  {
    var t := TrackedSystem(s, route);
    assert s.requested + t.gui.routes.loads == t.requested + t.gui.routes.loads;
  }

  lemma RouteAcceptedInv(s: System, route: string, held: nat)
    requires Holds(s, held) && s.gui.life.phase == Running && route != ""
    requires |s.gui.routes.loads| < MaxQueuedCommands && QueueLength(s.gui.queue) < MaxQueuedCommands
    ensures Holds(Absorb(s, EnqueueRouteLoad(s.gui, route, true).0, []), held)
  {
    hide Lively, Polling, Sending, InTransit, SingleFlight, Shape, Loading, Absorb, Enqueue;
    var id := s.gui.routes.nextLoad + 1;
    var command := Command(0, RouteLoad(id, route), route, true, false, "", None, false);
    TrackedInv(s, route, held);
    EnqueueInv(TrackedSystem(s, route), command, held);
    AbsorbTracked(s, route, command);
  }

  /** Only the counter of route loads may move. */
  lemma RouteCounterInv(s: System, nextLoad: nat, held: nat)
    requires Holds(s, held) && nextLoad >= s.gui.routes.nextLoad
    ensures Holds(Absorb(s, s.gui.(routes := s.gui.routes.(nextLoad := nextLoad)), []), held)
  {
    hide Lively, Polling, Sending, InTransit, SingleFlight;
    var d := s.gui.(routes := s.gui.routes.(nextLoad := nextLoad));
    if s.gui.life.phase == Running {
      AbsorbPosts(s, d);
      assert s.toIo + [] == s.toIo;
    } else {
      IdleInv(s, d);
    }
  }

  lemma StutterInv(s: System, held: nat)
    requires Holds(s, held)
    ensures Holds(Absorb(s, s.gui, []), held)
  {
    hide Holds, Absorb;
    RouteCounterInv(s, s.gui.routes.nextLoad, held);
    assert s.gui.(routes := s.gui.routes.(nextLoad := s.gui.routes.nextLoad)) == s.gui;
  }

  /** Asking the worker to load a route; a refusal leaves the queue alone. */
  lemma RouteLoadInv(s: System, route: string, valid: bool, held: nat)
    requires Holds(s, held) && s.gui.life.phase == Running
    ensures Holds(Absorb(s, EnqueueRouteLoad(s.gui, route, valid).0, []), held)
  {
    hide RunningInv, Shape, Absorb, Enqueue;
    var r := s.gui.routes;
    if route == "" || |r.loads| >= MaxQueuedCommands || QueueLength(s.gui.queue) >= MaxQueuedCommands {
      StutterInv(s, held);
    } else if valid {
      RouteAcceptedInv(s, route, held);
    } else {
      RouteCounterInv(s, r.nextLoad + 1, held);
    }
  }

  lemma VisibilityInv(s: System, visible: bool, held: nat)
    requires Holds(s, held) && s.gui.life.phase == Running
    ensures Holds(Absorb(s, EnqueueMessage(s.gui, VisibilityChanged(visible), false).0, []), held)
  {
    hide RunningInv, Absorb, Enqueue;
    var command := PlainCommand(VisibilityChanged(visible), false);
    if QueueLength(s.gui.queue) < MaxQueuedCommands { EnqueueInv(s, command, held); } else { StutterInv(s, held); }
  }

  /** The reply carries the token the step took from the queue. */
  lemma ReplyAndResumeInv(s: System, requestId: string, valid: bool)
    requires Holds(s, 1) && s.gui.life.phase == Running
    ensures Inv(Absorb(s, ReplyAndResume(s.gui, requestId, valid), []))
  {
    hide RunningInv, Absorb, Enqueue, FailClosed;
    var command := PlainCommand(NavigationReply(requestId, false), true);
    if valid && QueueLength(s.gui.queue) < MaxQueuedCommands {
      EnqueueInv(s, command, 0);
    } else {
      FailInv(s, s.gui, ResponseQueueFailed);
    }
  }

  /** An observer is called: it takes over the token, if there is one. */
  lemma PushInv(s: System, f: Frame, held: nat)
    requires Holds(s, held + if AwaitedFrame(s.gui.life.generation)(f) then 1 else 0) && s.gui.life.phase == Running
    requires f.generation == s.gui.life.generation
    requires f.ReportingSent? ==> !f.resume
    requires f.ObservingCapability? ==> f.authority == s.io.value.authority && f.requestId != ""
    ensures Holds(Absorb(s, s.gui, [f]), held)
  {
    hide Lively, Sending, SingleFlight;
    var t := Absorb(s, s.gui, [f]);
    AbsorbPosts(s, s.gui);
    assert s.toIo + [] == s.toIo && t == s.(frames := s.frames + [f]);
    CountSnoc(s.frames, f, AwaitedFrame(s.gui.life.generation));
  }

  // ---- Taking an event or an activation off its queue --------------------------------

  function PopGui(s: System): System
    requires s.toGui != []
  {
    s.(toGui := s.toGui[1..])
  }

  /** An event that asks for the GUI's answer hands its token to the step that takes it. */
  lemma PopGuiInv(s: System)
    requires Inv(s) && s.toGui != []
    requires s.gui.life.phase == Running && s.toGui[0].generation == s.gui.life.generation ==>
               !s.toGui[0].CommandFinished? && !s.toGui[0].SessionFailed?
    ensures Holds(PopGui(s), if AwaitedEvent(s.gui.life.generation)(s.toGui[0]) then 1 else 0)
  {
    hide SingleFlight, Loading;
  }

  function PopFrame(s: System): System
    requires s.frames != []
  {
    s.(frames := s.frames[..|s.frames| - 1])
  }

  lemma PopFrameInv(s: System)
    requires Inv(s) && s.frames != []
    ensures var f := s.frames[|s.frames| - 1];
      Holds(PopFrame(s), if AwaitedFrame(s.gui.life.generation)(f) then 1 else 0)
  {
    hide SingleFlight, Loading, Sending, Lively;
    var front, f := s.frames[..|s.frames| - 1], s.frames[|s.frames| - 1];
    assert s.frames == front + [f];
    CountSnoc(front, f, AwaitedFrame(s.gui.life.generation));
  }

  // ---- The GUI thread's handlers ------------------------------------------------------

  lemma NavigationArrivesInv(s: System, generation: nat, requestId: string, route: string, valid: bool)
    requires Holds(s, if generation == s.gui.life.generation then 1 else 0)
    ensures var (d, frames) := NavigationArrives(s.gui, generation, requestId, route, valid); Inv(Absorb(s, d, frames))
  {
    hide RunningInv, Absorb, ReplyAndResume;
    if !Current(s.gui, generation) {
      StutterInv(s, 0);
    } else if s.gui.routes.loads != map[] {
      ReplyAndResumeInv(s, requestId, valid);
    } else {
      PushInv(s, Navigating(generation, requestId, route), 0);
    }
  }

  /** The queue with its last command marked. */
  function Marked(q: Queue): Queue
    requires q.outbound != []
  {
    var last := |q.outbound| - 1;
    q.(outbound := q.outbound[last := q.outbound[last].(resumePollingAfter := true)])
  }

  lemma MarkPolling(g: nat, q: Queue, io: Io, toIo: seq<IoEvent>, toGui: seq<GuiEvent>, frames: seq<Frame>)
    requires Polling(g, q, io, toIo, toGui, frames, 1) && q.outbound != []
    requires var last := q.outbound[|q.outbound| - 1]; !Resuming(last) && !Completing(last)
    ensures Polling(g, Marked(q), io, toIo, toGui, frames, 0)
  {
    CountUpdateLast(q.outbound, q.outbound[|q.outbound| - 1].(resumePollingAfter := true), Resuming);
  }

  lemma MarkSending(g: nat, q: Queue, io: Io, toIo: seq<IoEvent>, toGui: seq<GuiEvent>, base: nat, delivered: seq<nat>)
    requires Sending(g, q, io, toIo, toGui, base, delivered) && q.outbound != []
    ensures Sending(g, Marked(q), io, toIo, toGui, base, delivered)
  {}

  lemma MarkSingleFlight(g: nat, t: Slot, q: Queue, authority: Option<Authority>, outstanding: seq<Dispatch>)
    requires SingleFlight(g, t, q, authority, outstanding) && q.outbound != []
    ensures SingleFlight(g, t, Marked(q), authority, outstanding)
  {
    CountUpdateLast(q.outbound, q.outbound[|q.outbound| - 1].(resumePollingAfter := true), Completing);
    assert q.outbound[|q.outbound| - 1] in q.outbound;
  }

  /** Marking the command queued last puts the step's token on it. */
  lemma MarkInv(s: System)
    requires Holds(s, 1) && s.gui.life.phase == Running && s.gui.queue.outbound != []
    requires var last := s.gui.queue.outbound[|s.gui.queue.outbound| - 1]; !Resuming(last) && !Completing(last)
    ensures Holds(s.(gui := MarkResume(s.gui)), 0)
  {
    hide Lively, Polling, Sending, SingleFlight, Loading, InTransit;
    var g, q, io := s.gui.life.generation, s.gui.queue, s.io.value;
    MarkPolling(g, q, io, s.toIo, s.toGui, s.frames);
    MarkSending(g, q, io, s.toIo, s.toGui, s.base, s.delivered);
    MarkSingleFlight(g, s.gui.slot, q, io.authority, s.outstanding);
  }

  /** With a command in flight, queuing a route load puts its command last and pumps nothing. */
  lemma RouteLoadIsLast(c: Gui, route: string)
    requires c.queue.active.Some?
    ensures var (d, ok) := EnqueueRouteLoad(c, route, true);
      ok ==>
        && d.queue.outbound != [] && d.out == c.out && d.life == c.life && d.slot == c.slot
        && d.queue == Appended(c.queue, Command(0, RouteLoad(c.routes.nextLoad + 1, route), route, true, false, "", None, false))
        && d.routes == Tracked(c.routes, route)
  {}

  /** Letting queued calls leave in between makes no difference to where a run of the controller ends. */
  lemma AbsorbAgain(s: System, c1: Gui, d: Gui, c2: Gui)
    requires c1.life.hasIo && c1.life.generation == s.gui.life.generation == d.life.generation == c2.life.generation
    requires c2.life.hasIo == d.life.hasIo && Flushed(c2) == Flushed(d)
    requires c2.out.posted == c1.out.posted + d.out.posted
    requires c2.out.selfPosted == c1.out.selfPosted + d.out.selfPosted
    requires c2.out.dispatched == c1.out.dispatched + d.out.dispatched
    requires forall id <- c1.routes.loads :: id in d.routes.loads
    ensures Absorb(s, c2, []) == Absorb(Absorb(s, c1, []), d, [])
  {
    var t := Absorb(s, c1, []);
    assert s.toIo + (c1.out.posted + d.out.posted) == s.toIo + c1.out.posted + d.out.posted;
    assert s.toGui + (c1.out.selfPosted + d.out.selfPosted) == s.toGui + c1.out.selfPosted + d.out.selfPosted;
    assert s.outstanding + (c1.out.dispatched + d.out.dispatched) == s.outstanding + c1.out.dispatched + d.out.dispatched;
    assert s.frames + [] + [] == s.frames + [];
    assert s.requested + c2.routes.loads == s.requested + c1.routes.loads + d.routes.loads;
  }

  lemma RouteLoadAgain(s: System, c: Gui, route: string)
    requires c.queue.active.Some? && c.life.hasIo && c.life.generation == s.gui.life.generation
    requires EnqueueRouteLoad(c, route, true).1 && forall id <- c.routes.loads :: id <= c.routes.nextLoad
    ensures var d := EnqueueRouteLoad(Flushed(c), route, true).0;
      && Absorb(s, EnqueueRouteLoad(c, route, true).0, []) == Absorb(Absorb(s, c, []), d, [])
      && d.queue.outbound != []
      && d.life == c.life
      && !Resuming(d.queue.outbound[|d.queue.outbound| - 1]) && !Completing(d.queue.outbound[|d.queue.outbound| - 1])
  {
    hide Absorb, EnqueueRouteLoad;
    RouteLoadIsLast(c, route);
    RouteLoadIsLast(Flushed(c), route);
    RouteLoadAccepted(c, route);
    AbsorbAgain(s, c, EnqueueRouteLoad(Flushed(c), route, true).0, EnqueueRouteLoad(c, route, true).0);
  }

  lemma RouteLoadAccepted(c: Gui, route: string)
    ensures EnqueueRouteLoad(Flushed(c), route, true).1 == EnqueueRouteLoad(c, route, true).1
  {}

  lemma AbsorbGui(s: System, c: Gui)
    ensures var d := Absorb(s, c, []).gui; d == Flushed(c) && d.life == c.life && d.queue == c.queue
  {}

  lemma LoadsCounted(s: System, held: nat)
    requires Holds(s, held) && s.gui.life.phase == Running
    ensures s.gui.life.hasIo && forall id <- s.gui.routes.loads :: id <= s.gui.routes.nextLoad
  {
    assert forall id <- s.gui.routes.loads :: id in s.requested;
  }

  lemma EnqueueFacts(c: Gui, command: Command)
    requires c.life.phase == Running && c.life.hasIo
    ensures var d := Enqueue(c, command); d.life == c.life && d.routes == c.routes && d.queue.active.Some?
  {}

  /** The navigation is accepted: its reply and its route load are queued, and the latter resumes polling. */
  lemma NavigationAcceptedInv(s: System, requestId: string, route: string)
    requires Holds(s, 1) && s.gui.life.phase == Running && QueueLength(s.gui.queue) < MaxQueuedCommands
    requires EnqueueRouteLoad(Enqueue(s.gui, PlainCommand(NavigationReply(requestId, true), false)), route, true).1
    ensures
      var replied := Enqueue(s.gui, PlainCommand(NavigationReply(requestId, true), false));
      Inv(Absorb(s, MarkResume(EnqueueRouteLoad(replied, route, true).0), []))
  {
    hide RunningInv, Shape, Absorb, Enqueue, EnqueueRouteLoad, MarkResume, Flushed;
    var reply := PlainCommand(NavigationReply(requestId, true), false);
    var c1 := Enqueue(s.gui, reply);
    LoadsCounted(s, 1);
    EnqueueInv(s, reply, 1);
    EnqueueFacts(s.gui, reply);
    var t1 := Absorb(s, c1, []);
    AbsorbGui(s, c1);
    RouteLoadInv(t1, route, true, 1);
    var d := EnqueueRouteLoad(t1.gui, route, true).0;
    RouteLoadAgain(s, c1, route);
    AbsorbGui(t1, d);
    MarkInv(Absorb(t1, d, []));
    AbsorbMarked(s, EnqueueRouteLoad(c1, route, true).0);
  }

  lemma AbsorbMarked(s: System, c: Gui)
    ensures var t := Absorb(s, c, []); t.(gui := MarkResume(t.gui)) == Absorb(s, MarkResume(c), [])
  {}

  lemma NavigationReturnsInv(s: System, generation: nat, requestId: string, route: string, navigation: Navigation,
                             valid: bool, loadValid: bool)
    requires Holds(s, if generation == s.gui.life.generation then 1 else 0)
    ensures Inv(Absorb(s, NavigationReturns(s.gui, generation, requestId, route, navigation, valid, loadValid), []))
  {
    hide RunningInv, Absorb, FailClosed, ReplyAndResume, MarkResume;
    if navigation == Threw {
      FailInv(s, s.gui, NavigationCallbackFailed);
    } else if !Current(s.gui, generation) {
      StutterInv(s, 0);
    } else if navigation == Refused {
      ReplyAndResumeInv(s, requestId, valid);
    } else if !valid || QueueLength(s.gui.queue) >= MaxQueuedCommands {
      FailInv(s, s.gui, OutboundQueueFull);
    } else {
      var replied := Enqueue(s.gui, PlainCommand(NavigationReply(requestId, true), false));
      if EnqueueRouteLoad(replied, route, loadValid).1 {
        NavigationAcceptedInv(s, requestId, route);
      } else {
        FailInv(s, EnqueueRouteLoad(replied, route, loadValid).0, OutboundQueueFull);
      }
    }
  }

  /** The routes after the load `loadId` has been answered. */
  function Erased(r: Routes, loadId: nat): Routes {
    r.(loads := r.loads - {loadId}, latestAcknowledged := r.latestAcknowledged || loadId == r.latestId)
  }

  lemma EraseLoading(r: Routes, requested: map<nat, string>, answered: set<nat>, loadId: nat)
    requires Loading(r, requested, answered) && loadId in r.loads && loadId in answered
    ensures Loading(Erased(r, loadId), requested, answered)
    ensures Erased(r, loadId).loads == map[] ==> Loading(ClearLoads(Erased(r, loadId)), requested, answered)
  {
    var rest := Erased(r, loadId);
    assert rest.loads.Keys == r.loads.Keys - {loadId};
    assert |rest.loads.Keys| <= |r.loads.Keys|;
    if rest.loads == map[] {
      forall id <- requested ensures id in answered { assert id !in rest.loads; }
    }
  }

  /** When the last pending load is answered, the newest one has been acknowledged: a burst cannot end inconsistently. */
  lemma BurstEnds(r: Routes, requested: map<nat, string>, answered: set<nat>, loadId: nat)
    requires Loading(r, requested, answered) && loadId in r.loads && loadId in answered
    requires Erased(r, loadId).loads == map[]
    ensures var rest := Erased(r, loadId);
      && rest.latestAcknowledged && rest.latestId != 0 && rest.latestRoute != ""
      && rest.latestId in requested && rest.latestRoute == requested[rest.latestId]
      && forall id <- requested :: id <= rest.latestId && id in answered
  {
    EraseLoading(r, requested, answered, loadId);
    forall id <- requested ensures id in answered { assert id !in Erased(r, loadId).loads; }
  }

  /** Only the routes and the signals change, within what has been requested. */
  lemma RoutesInv(s: System, d: Gui, held: nat)
    requires Holds(s, held) && s.gui.life.phase == Running
    requires d == s.gui.(routes := d.routes, out := s.gui.out.(signals := d.out.signals))
    requires Loading(d.routes, s.requested, s.answered)
    ensures Holds(s.(gui := d), held)
  {
    hide Lively, Polling, Sending, Loading, InTransit, SingleFlight;
  }

  /** A matching response: polling goes on, or the burst is over and its end is announced. */
  lemma RouteAnsweredInv(s: System, loadId: nat)
    requires Holds(s, 1) && s.gui.life.phase == Running && loadId in s.gui.routes.loads && loadId in s.answered
    ensures var g, r := s.gui.life.generation, s.gui.routes;
      var (d, frames) := RouteResponseArrives(s.gui, g, loadId, true, r.loads[loadId]); Inv(Absorb(s, d, frames))
  {
    hide RunningInv, Absorb, FailClosed, Loading, Shape;
    var c, r, g := s.gui, s.gui.routes, s.gui.life.generation;
    var (d, frames) := RouteResponseArrives(c, g, loadId, true, r.loads[loadId]);
    var rest := Erased(r, loadId);
    RunningLoads(s, 1);
    EraseLoading(r, s.requested, s.answered, loadId);
    if rest.loads != map[] {
      var c1 := c.(routes := rest);
      RoutesInv(s, c1, 1);
      ResumeInv(s.(gui := c1), 0);
      AbsorbFrom(s, c1, ResumeIoPolling(c1), []);
    } else {
      BurstEnds(r, s.requested, s.answered, loadId);
      RoutesInv(s, d, 1);
      PushInv(s.(gui := d), Acknowledging(g), 0);
      AbsorbFrom(s, d, d, frames);
    }
  }

  lemma RunningLoads(s: System, held: nat)
    requires Holds(s, held) && s.gui.life.phase == Running
    ensures Loading(s.gui.routes, s.requested, s.answered)
    ensures forall id <- s.gui.routes.loads :: id in s.requested && s.requested[id] == s.gui.routes.loads[id]
  {}

  lemma RouteResponseArrivesInv(s: System, generation: nat, loadId: nat, ok: bool, route: string)
    requires Holds(s, if generation == s.gui.life.generation then 1 else 0)
    requires Current(s.gui, generation) && ok && loadId in s.requested && s.requested[loadId] == route ==> loadId in s.answered
    ensures var (d, frames) := RouteResponseArrives(s.gui, generation, loadId, ok, route); Inv(Absorb(s, d, frames))
  {
    hide RunningInv, Absorb, FailClosed;
    var c, r := s.gui, s.gui.routes;
    if !Current(c, generation) {
      StutterInv(s, 0);
    } else if loadId !in r.loads || !ok || r.loads[loadId] != route {
      FailInv(s, c, if loadId in r.loads then RouteLoadRejected else UnexpectedResponse);
    } else {
      RunningLoads(s, 1);
      RouteAnsweredInv(s, loadId);
    }
  }

  lemma AcknowledgementReturnsInv(s: System, generation: nat)
    requires Holds(s, if generation == s.gui.life.generation then 1 else 0)
    ensures Inv(Absorb(s, AcknowledgementReturns(s.gui, generation), []))
  {
    hide RunningInv, Absorb, ResumeIoPolling;
    if Current(s.gui, generation) { ResumeInv(s, 0); } else { StutterInv(s, 0); }
  }

  // ---- Commands that finish -----------------------------------------------------------

  lemma FinishPolling(g: nat, q: Queue, io: Io, toIo: seq<IoEvent>, toGui: seq<GuiEvent>, frames: seq<Frame>)
    requires toGui != [] && toGui[0].CommandFinished? && q.active.Some?
    requires Polling(g, q, io, toIo, toGui, frames, 0)
    ensures Polling(g, q.(active := None), io, toIo, toGui[1..], frames, if Resuming(q.active.value) then 1 else 0)
  {}

  lemma FinishSending(g: nat, q: Queue, io: Io, toIo: seq<IoEvent>, toGui: seq<GuiEvent>, base: nat, delivered: seq<nat>)
    requires toGui != [] && toGui[0].CommandFinished? && toGui[0].generation == g
    requires Sending(g, q, io, toIo, toGui, base, delivered)
    ensures q.active.Some? && q.active.value.id == toGui[0].commandId
    ensures Sending(g, q.(active := None), io, toIo, toGui[1..], base, delivered)
  {
    assert toGui[0] in toGui;
    CountZero(toGui[1..], FinishedEvent(g));
    CountZero(toIo, IsSend);
  }

  /** The slot after `active` has finished: it is free if that was the completion of its request. */
  function Released(t: Slot, active: Command): Slot {
    if Completing(active) && active.capabilityRequestId == t.activeRequest then t.(activeRequest := "") else t
  }

  lemma FinishSingleFlight(g: nat, t: Slot, q: Queue, authority: Option<Authority>, outstanding: seq<Dispatch>)
    requires SingleFlight(g, t, q, authority, outstanding) && q.active.Some?
    ensures SingleFlight(g, Released(t, q.active.value), q.(active := None), authority, outstanding)
  {
    CountZero(q.outbound, Completing);
    CountZero(outstanding, DispatchOf(g));
  }

  /** A finished command leaves the flight; its token, if it carried one, is in the step's hands. */
  function Finished(s: System): System
    requires s.toGui != [] && s.gui.queue.active.Some?
  {
    PopGui(s).(gui := s.gui.(queue := s.gui.queue.(active := None), slot := Released(s.gui.slot, s.gui.queue.active.value)))
  }

  lemma FinishedInv(s: System)
    requires Inv(s) && s.gui.life.phase == Running && s.toGui != []
    requires s.toGui[0].CommandFinished? && s.toGui[0].generation == s.gui.life.generation
    ensures s.gui.queue.active.Some? && s.gui.queue.active.value.id == s.toGui[0].commandId
    ensures Holds(Finished(s), if Resuming(s.gui.queue.active.value) then 1 else 0)
  {
    hide Polling, Sending, SingleFlight, Loading;
    var g, q, io := s.gui.life.generation, s.gui.queue, s.io.value;
    FinishSending(g, q, io, s.toIo, s.toGui, s.base, s.delivered);
    FinishPolling(g, q, io, s.toIo, s.toGui, s.frames);
    FinishSingleFlight(g, s.gui.slot, q, io.authority, s.outstanding);
  }

  lemma CommandFinishesInv(s: System, published: bool, success: bool, error: Error)
    requires Inv(s) && s.toGui != [] && s.toGui[0].CommandFinished?
    ensures var e := s.toGui[0];
      var (d, frames) := CommandFinishes(s.gui, e.generation, e.commandId, success, published, error);
      Inv(Absorb(PopGui(s), d, frames))
  {
    hide RunningInv, Absorb, FailClosed, PumpAndResume;
    var e := s.toGui[0];
    var (d, frames) := CommandFinishes(s.gui, e.generation, e.commandId, success, published, error);
    if !Current(s.gui, e.generation) {
      PopGuiInv(s);
      StutterInv(PopGui(s), 0);
    } else {
      FinishedInv(s);
      var t, resume := Finished(s), Resuming(s.gui.queue.active.value);
      if !success {
        var idle := s.gui.(queue := s.gui.queue.(active := None));
        FailInv(PopGui(s), idle, if error == NoError then SendFailed else error);
      } else if frames == [] {
        PumpAndResumeInv(t, resume, 0);
        AbsorbFrom(PopGui(s), t.gui, d, frames);
      } else {
        CompletionDoesNotResume(s);
        SignalledInv(t, d.out.signals, 0);
        PushInv(t.(gui := d), ReportingSent(e.generation, resume), 0);
        AbsorbFrom(PopGui(s), d, d, frames);
      }
    }
  }

  lemma AbsorbFrom(s: System, d: Gui, c: Gui, frames: seq<Frame>)
    requires d.life.generation == s.gui.life.generation
    ensures Absorb(s, c, frames) == Absorb(s.(gui := d), c, frames)
  {}

  lemma CompletionDoesNotResume(s: System)
    requires Inv(s) && s.gui.life.phase == Running
    ensures s.gui.queue.active.Some? && Completing(s.gui.queue.active.value) ==> !Resuming(s.gui.queue.active.value)
  {}

  lemma SignalledInv(s: System, signals: seq<Signal>, held: nat)
    requires Holds(s, held)
    ensures Holds(s.(gui := s.gui.(out := s.gui.out.(signals := signals))), held)
  {
    hide Lively, Polling, Sending, Loading, InTransit, SingleFlight;
  }

  lemma SentReportReturnsInv(s: System, generation: nat, resume: bool)
    requires Holds(s, 0) && (Current(s.gui, generation) ==> !resume)
    ensures Inv(Absorb(s, SentReportReturns(s.gui, generation, resume), []))
  {
    hide RunningInv, Absorb, PumpAndResume;
    if Current(s.gui, generation) { PumpAndResumeInv(s, false, 0); } else { StutterInv(s, 0); }
  }

  // ---- Capability requests --------------------------------------------------------------

  /** A step that queues no call for the IO thread adds to the other queues only. */
  lemma AbsorbLocal(s: System, c: Gui)
    requires c.life.generation == s.gui.life.generation && c.life.hasIo && s.io.Some?
    requires c.out.posted == []
    requires forall id <- c.routes.loads :: id in s.requested && s.requested[id] == c.routes.loads[id]
    ensures Absorb(s, c, []) == s.(gui := Flushed(c), toGui := s.toGui + c.out.selfPosted,
                                   outstanding := s.outstanding + c.out.dispatched)
  {
    assert s.toIo + [] == s.toIo && s.frames + [] == s.frames;
    assert s.requested + c.routes.loads == s.requested;
  }

  lemma NoticePolling(g: nat, q: Queue, io: Io, toIo: seq<IoEvent>, toGui: seq<GuiEvent>, frames: seq<Frame>, base: nat,
                      delivered: seq<nat>, e: GuiEvent)
    requires Polling(g, q, io, toIo, toGui, frames, 0) && Sending(g, q, io, toIo, toGui, base, delivered)
    requires e.PostedFailure?
    ensures Polling(g, q, io, toIo, toGui + [e], frames, 0) && Sending(g, q, io, toIo, toGui + [e], base, delivered)
  {
    CountSnoc(toGui, e, AwaitedEvent(g));
    CountSnoc(toGui, e, FinishedEvent(g));
  }

  /** A failure the controller has posted to itself is just another event. */
  lemma PostFailureInv(s: System, error: Error)
    requires Inv(s) && s.gui.life.phase == Running
    ensures Inv(Absorb(s, PostFailure(s.gui, s.gui.life.generation, error), []))
  {
    hide Polling, Sending, SingleFlight;
    var g := s.gui.life.generation;
    var d, e := PostFailure(s.gui, g, error), PostedFailure(g, error);
    NoticePolling(g, s.gui.queue, s.io.value, s.toIo, s.toGui, s.frames, s.base, s.delivered, e);
    AbsorbLocal(s, d);
    assert d.out.selfPosted == [e] && s.outstanding + [] == s.outstanding;
  }

  /** A response may be queued if it is a plain refusal, or if the slot's request is still unanswered. */
  lemma QueueCapabilityResponseInv(s: System, authority: Option<Authority>, hasUse: bool, generation: nat,
                                   requestId: string, result: BrokerResult, completes: bool, valid: bool)
    requires Inv(s)
    requires s.gui.life.phase == Running && completes && requestId == s.gui.slot.activeRequest && generation == s.gui.life.generation ==>
               Commands(s.gui.queue, Completing) + Count(s.outstanding, DispatchOf(generation)) == 0
    ensures Inv(Absorb(s, QueueCapabilityResponse(s.gui, authority, hasUse, generation, requestId, result, completes, valid).0, []))
  {
    hide Lively, Polling, Sending, Loading, InTransit, Absorb, Enqueue;
    if RefusesResponse(s.gui, authority, hasUse, generation, requestId, result, completes) {
      StutterInv(s, 0);
    } else if !valid {
      PostFailureInv(s, ResponseInvalid);
    } else if QueueLength(s.gui.queue) >= MaxQueuedCommands {
      PostFailureInv(s, ResponseQueueFailed);
    } else {
      var command := Command(0, CapabilityReply(requestId, result), "", false, false,
                             if completes then requestId else "", authority, hasUse);
      EnqueueInv(s, command, 0);
    }
  }

  /** Taking the free slot for a request. */
  function Claimed(s: System, requestId: string): System {
    s.(gui := s.gui.(slot := s.gui.slot.(activeRequest := requestId)))
  }

  lemma ClaimInv(s: System, requestId: string)
    requires Inv(s) && s.gui.life.phase == Running && s.gui.slot.activeRequest == ""
    ensures Inv(Claimed(s, requestId))
    ensures Commands(s.gui.queue, Completing) + Count(s.outstanding, DispatchOf(s.gui.life.generation)) == 0
  {
    hide Lively, Polling, Sending, Loading, InTransit;
    CountZero(s.gui.queue.outbound, Completing);
    CountZero(s.outstanding, DispatchOf(s.gui.life.generation));
  }

  lemma DispatchSingleFlight(g: nat, t: Slot, q: Queue, authority: Option<Authority>, outstanding: seq<Dispatch>)
    requires SingleFlight(g, t, q, authority, outstanding) && t.activeRequest != "" && t.authority.Some?
    requires Commands(q, Completing) + Count(outstanding, DispatchOf(g)) == 0
    ensures SingleFlight(g, t, q, authority, outstanding + [Dispatch(g, t.activeRequest, t.authority.value)])
  {
    CountSnoc(outstanding, Dispatch(g, t.activeRequest, t.authority.value), DispatchOf(g));
  }

  /** Handing the slot's request to the runtime. */
  lemma DispatchInv(s: System)
    requires Inv(s) && s.gui.life.phase == Running && s.gui.slot.activeRequest != "" && s.gui.slot.authority.Some?
    requires Commands(s.gui.queue, Completing) + Count(s.outstanding, DispatchOf(s.gui.life.generation)) == 0
    ensures
      var dispatch := Dispatch(s.gui.life.generation, s.gui.slot.activeRequest, s.gui.slot.authority.value);
      Inv(Absorb(s, s.gui.(out := s.gui.out.(dispatched := s.gui.out.dispatched + [dispatch])), []))
  {
    hide Lively, Polling, Sending, InTransit, SingleFlight;
    var g := s.gui.life.generation;
    var dispatch := Dispatch(g, s.gui.slot.activeRequest, s.gui.slot.authority.value);
    var d := s.gui.(out := s.gui.out.(dispatched := s.gui.out.dispatched + [dispatch]));
    DispatchSingleFlight(g, s.gui.slot, s.gui.queue, s.io.value.authority, s.outstanding);
    AbsorbLocal(s, d);
    assert d.out.dispatched == [dispatch] && s.toGui + [] == s.toGui;
  }

  lemma CapabilityObservedInv(s: System, authority: Option<Authority>, generation: nat, requestId: string,
                              use: bool, valid: bool)
    requires Inv(s)
    requires Current(s.gui, generation) ==> authority == s.io.value.authority && requestId != ""
    ensures Inv(Absorb(s, CapabilityObserved(s.gui, authority, generation, requestId, use, valid), []))
  {
    hide RunningInv, Absorb, FailClosed, QueueCapabilityResponse;
    var t := s.gui.slot;
    if !Current(s.gui, generation) {
      StutterInv(s, 0);
    } else if t.activeRequest != "" {
      if !t.runtimeBound || t.authority.None? || authority != t.authority {
        FailInv(s, s.gui, CapabilityAuthorityMismatch);
      } else if !use {
        FailInv(s, s.gui, ResponseQueueFailed);
      } else {
        var (queued, ok) := QueueCapabilityResponse(s.gui, authority, true, generation, requestId,
                                                    BrokerResult(false, Busy), false, valid);
        if ok {
          QueueCapabilityResponseInv(s, authority, true, generation, requestId, BrokerResult(false, Busy), false, valid);
        } else {
          RefusedResponse(s.gui, authority, true, generation, requestId, BrokerResult(false, Busy), false, valid);
          FailInv(s, queued, ResponseQueueFailed);
        }
      }
    } else {
      var claimed := Claimed(s, requestId);
      if !t.runtimeBound || t.authority.None? {
        if authority.Some? {
          FailInv(s, s.gui, CapabilityAuthorityMismatch);
        } else {
          ClaimInv(s, requestId);
          QueueCapabilityResponseInv(claimed, None, false, generation, requestId, BrokerResult(false, Denied), true, valid);
          AbsorbFrom(s, claimed.gui, QueueCapabilityResponse(claimed.gui, None, false, generation, requestId,
                                                             BrokerResult(false, Denied), true, valid).0, []);
        }
      } else if authority != t.authority {
        FailInv(s, s.gui, CapabilityAuthorityMismatch);
      } else {
        ClaimInv(s, requestId);
        DispatchInv(claimed);
        AbsorbFrom(s, claimed.gui, CapabilityObserved(s.gui, authority, generation, requestId, use, valid), []);
      }
    }
  }

  /** A response that is not queued costs at most a failure posted to the controller itself. */
  lemma RefusedResponse(c: Gui, authority: Option<Authority>, hasUse: bool, generation: nat,
                        requestId: string, result: BrokerResult, completes: bool, valid: bool)
    ensures
      var (d, ok) := QueueCapabilityResponse(c, authority, hasUse, generation, requestId, result, completes, valid);
      !ok ==>
        && d.life == c.life && d.out.posted == c.out.posted && d.out.dispatched == c.out.dispatched
        && (d.out.selfPosted == c.out.selfPosted
            || exists e :: d.out.selfPosted == c.out.selfPosted + [e] && e.generation == c.life.generation)
  {}

  lemma {:induction false} CountRemove<T>(s: seq<T>, i: nat, p: T -> bool)
    requires i < |s|
    ensures Count(s[..i] + s[i + 1..], p) + (if p(s[i]) then 1 else 0) == Count(s, p)
  {
    assert s == s[..i] + ([s[i]] + s[i + 1..]);
    CountAppend(s[..i], [s[i]] + s[i + 1..], p);
    CountAppend([s[i]], s[i + 1..], p);
    CountAppend(s[..i], s[i + 1..], p);
  }

  /** The runtime has completed dispatch `i`: it is no longer outstanding. */
  function Completed(s: System, i: nat): System
    requires i < |s.outstanding|
  {
    s.(outstanding := s.outstanding[..i] + s.outstanding[i + 1..])
  }

  lemma CompletedInv(s: System, i: nat)
    requires Inv(s) && i < |s.outstanding|
    ensures Inv(Completed(s, i))
    ensures s.gui.life.phase == Running && s.outstanding[i].generation == s.gui.life.generation ==>
              Commands(s.gui.queue, Completing) + Count(Completed(s, i).outstanding, DispatchOf(s.gui.life.generation)) == 0
  {
    hide Lively, Polling, Sending, Loading, InTransit;
    CountRemove(s.outstanding, i, DispatchOf(s.gui.life.generation));
    assert forall d <- Completed(s, i).outstanding :: d in s.outstanding;
  }

  lemma CompleteDispatchInv(s: System, i: nat, hasUse: bool, result: BrokerResult, valid: bool)
    requires Inv(s) && i < |s.outstanding|
    ensures Inv(Next(s, CompleteDispatch(i, hasUse, result, valid)))
  {
    hide RunningInv, Absorb, QueueCapabilityResponse, Shape;
    var done := s.outstanding[i];
    CompletedInv(s, i);
    if hasUse {
      QueueCapabilityResponseInv(Completed(s, i), Some(done.authority), true, done.generation, done.requestId, result,
                                 true, valid);
    } else {
      StutterInv(Completed(s, i), 0);
    }
  }

  // ---- Calls from outside -----------------------------------------------------------------

  /** Neither the last error nor a lost capability binding matters to a running session's promises. */
  lemma BindingInv(s: System, error: Error, unbound: bool)
    requires Inv(s)
    ensures var t := s.gui.slot;
      Inv(Absorb(s, s.gui.(life := s.gui.life.(lastError := error),
                           slot := if unbound then Slot(false, None, t.activeRequest) else t), []))
  {
    hide Polling, Sending, InTransit;
    var t := s.gui.slot;
    var d := s.gui.(life := s.gui.life.(lastError := error),
                    slot := if unbound then Slot(false, None, t.activeRequest) else t);
    if s.gui.life.phase == Running {
      AbsorbPosts(s, d);
      assert s.toIo + [] == s.toIo;
    } else {
      IdleInv(s, d);
    }
  }

  lemma AttachInv(s: System, authority: Option<Authority>, outcome: StartOutcome)
    requires Inv(s)
    ensures Inv(Absorb(s, Attach(s.gui, authority, outcome).0, []))
  {
    hide RunningInv, Absorb, StartSession;
    if authority.Some? && authority.value.sessionGeneration != s.gui.life.generation + 1 {
      BindingInv(s, InvalidCapabilityBinding, false);
    } else if s.gui.life.hasIo {
      IdleInv(s, Attach(s.gui, authority, outcome).0);
    } else {
      StartInv(s, s.gui, authority, outcome);
    }
  }

  lemma UnbindInv(s: System, authority: Authority)
    requires Inv(s)
    ensures Inv(Absorb(s, UnbindCapabilityRuntime(s.gui, authority), []))
  {
    hide RunningInv, Absorb;
    if s.gui.slot.authority == Some(authority) { BindingInv(s, s.gui.life.lastError, true); } else { StutterInv(s, 0); }
  }

  lemma ThreadFinishesInv(s: System, generation: nat, outcome: StartOutcome)
    requires Inv(s) && !Current(s.gui, generation)
    ensures Inv(Absorb(s, ThreadFinishes(s.gui, generation, outcome), []))
  {
    hide RunningInv, StartSession, Absorb;
    var c := s.gui;
    if generation != c.life.generation || !c.life.hasIo {
      StutterInv(s, 0);
    } else if !c.life.pendingSession {
      IdleInv(s, ThreadFinishes(c, generation, outcome));
    } else {
      var life := c.life.(hasIo := false, stopRequested := false, pendingSession := false, pendingBinding := None,
                          phase := Detached);
      var dropped := Drop(c, life);
      if StartSession(dropped, c.life.pendingBinding, outcome).1 {
        StartInv(s, dropped, c.life.pendingBinding, outcome);
      } else {
        StartRefused(dropped, c.life.pendingBinding, outcome);
        IdleInv(s, ThreadFinishes(c, generation, outcome));
      }
    }
  }

  lemma StartRefused(c: Gui, authority: Option<Authority>, outcome: StartOutcome)
    requires !c.life.hasIo && !StartSession(c, authority, outcome).1
    ensures var d := StartSession(c, authority, outcome).0;
      && !d.life.hasIo && d.life.generation >= c.life.generation && d.out == c.out
      && d.life.pendingSession == c.life.pendingSession && d.life.cleanupFinal == c.life.cleanupFinal
  {}

  lemma FailureArrivesInv(s: System, generation: nat, error: Error)
    requires Inv(s) && s.toGui != [] && (s.toGui[0].SessionFailed? || s.toGui[0].PostedFailure?)
    requires s.toGui[0].generation == generation
    ensures Inv(Absorb(PopGui(s), SessionFailureArrives(s.gui, generation, error), []))
  {
    hide RunningInv, Absorb, FailClosed;
    if generation == s.gui.life.generation {
      FailInv(PopGui(s), s.gui, error);
    } else {
      PopGuiInv(s);
      StutterInv(PopGui(s), 0);
    }
  }

  lemma ShutdownFinishesInv(s: System, generation: nat)
    requires Inv(s)
    ensures Inv(Absorb(s, ShutdownFinishes(s.gui, generation), []))
  {
    hide RunningInv, Absorb;
    if generation != s.gui.life.generation || s.gui.life.phase != ShuttingDown { StutterInv(s, 0); }
    else { IdleInv(s, ShutdownFinishes(s.gui, generation)); }
  }

  // ---- The GUI thread ---------------------------------------------------------------------

  /** What the history records of a response, whatever the controller makes of it. */
  lemma AnsweredInv(s: System, answered: set<nat>, held: nat)
    requires Holds(s, held) && s.answered <= answered
    ensures Holds(s.(answered := answered), held)
  {
    hide Lively, Polling, Sending, InTransit, SingleFlight;
  }

  lemma DeliverInv(s: System, valid: bool, outcome: StartOutcome)
    requires Inv(s) && s.toGui != []
    ensures Inv(Deliver(PopGui(s), s.toGui[0], valid, outcome))
  {
    hide RunningInv, Absorb, FailClosed, NavigationArrives, RouteResponseArrives, CommandFinishes, ThreadFinishes,
         ShutdownFinishes, SessionFailureArrives, Shape;
    var e, t := s.toGui[0], PopGui(s);
    match e
    case CommandFinished(_, _, success, published, error) =>
      CommandFinishesInv(s, published, success, error);
    case SessionFailed(generation, error) =>
      FailureArrivesInv(s, generation, error);
    case PostedFailure(generation, error) =>
      FailureArrivesInv(s, generation, error);
    case NavigationRequested(generation, requestId, route) =>
      PopGuiInv(s);
      NavigationArrivesInv(t, generation, requestId, route, valid);
    case RouteLoadResponse(generation, loadId, ok, route) =>
      PopGuiInv(s);
      var matches := generation == s.gui.life.generation && ok && loadId in s.requested && s.requested[loadId] == route;
      var answered := if matches then s.answered + {loadId} else s.answered;
      AnsweredInv(t, answered, if generation == s.gui.life.generation then 1 else 0);
      RouteResponseArrivesInv(t.(answered := answered), generation, loadId, ok, route);
    case CapabilityRequested(authority, generation, requestId) =>
      PopGuiInv(s);
      if Current(s.gui, generation) {
        RequestIsGenuine(s);
        PushInv(t, ObservingCapability(authority, generation, requestId), 0);
      } else {
        StutterInv(t, 0);
      }
    case ShutdownFinished(generation) =>
      PopGuiInv(s);
      ShutdownFinishesInv(t, generation);
    case ThreadFinished(generation) =>
      PopGuiInv(s);
      RunningThread(s);
      ThreadFinishesInv(t, generation, outcome);
  }

  lemma RequestIsGenuine(s: System)
    requires Inv(s) && s.gui.life.phase == Running && s.toGui != []
    ensures var e := s.toGui[0];
      e.CapabilityRequested? && e.generation == s.gui.life.generation ==>
        e.authority == s.io.value.authority && e.requestId != ""
  {
    assert s.toGui[0] in s.toGui;
  }

  /** The thread of a running session has not finished. */
  lemma RunningThread(s: System)
    requires Inv(s) && s.toGui != [] && s.toGui[0].ThreadFinished?
    ensures !Current(s.gui, s.toGui[0].generation)
  {
    assert s.toGui[0] in s.toGui;
  }

  lemma ReturnInv(s: System, navigation: Navigation, hasUse: bool, valid: bool, loadValid: bool)
    requires Inv(s) && s.frames != []
    ensures Inv(Return(PopFrame(s), s.frames[|s.frames| - 1], navigation, hasUse, valid, loadValid))
  {
    hide RunningInv, Absorb, NavigationReturns, AcknowledgementReturns, CapabilityObserved, SentReportReturns, Shape;
    var f, t := s.frames[|s.frames| - 1], PopFrame(s);
    PopFrameInv(s);
    FrameIsGenuine(s);
    match f
    case Navigating(generation, requestId, route) =>
      NavigationReturnsInv(t, generation, requestId, route, navigation, valid, loadValid);
    case Acknowledging(generation) =>
      AcknowledgementReturnsInv(t, generation);
    case ObservingCapability(authority, generation, requestId) =>
      CapabilityObservedInv(t, authority, generation, requestId, hasUse, valid);
    case ReportingSent(generation, resume) =>
      SentReportReturnsInv(t, generation, resume);
  }

  lemma FrameIsGenuine(s: System)
    requires Inv(s) && s.frames != []
    ensures var f := s.frames[|s.frames| - 1];
      Current(s.gui, f.generation) ==>
        && (f.ObservingCapability? ==> f.authority == s.io.value.authority && f.requestId != "")
        && (f.ReportingSent? ==> !f.resume)
  {
    assert s.frames[|s.frames| - 1] in s.frames;
  }
}
