/** What the IO agent tells the controller, read off the messages it finds and the reports it gets. */
module SessionAgent {
  import opened Common
  import opened SessionTypes
  import opened SessionController
  import opened SessionIo
  import opened SessionSystem
  import opened SessionInvariant
  import opened SessionIoInvariant
  import opened SessionTheorems
  import opened SessionShutdown

  /** What one message makes the agent tell: a request or an answer as it is, or why it closes. */
  function Tells(io: Io, r: Received): seq<GuiEvent> {
    var g := io.generation;
    match r
    case NavigationRequest(requestId, route) => [NavigationRequested(g, requestId, route)]
    case Response(loadId, ok, route) => [RouteLoadResponse(g, loadId, ok, route)]
    case CapabilityRequest(requestId) => [CapabilityRequested(io.authority, g, requestId)]
    case PeerShutdownMessage => [if io.stopping then ShutdownFinished(g) else SessionFailed(g, PeerShutdown)]
    case PeerClosed => [if io.stopping then ShutdownFinished(g) else SessionFailed(g, ReceiveFailed)]
    case Unexpected => [SessionFailed(g, UnexpectedMessage)]
    case Broken => [SessionFailed(g, ReceiveFailed)]
    case _ => []
  }

  /** What the first `n` messages make it tell, one after the other. */
  function TellsAll(io: Io, messages: seq<Received>): seq<GuiEvent> {
    if messages == [] then [] else TellsAll(io, messages[..|messages| - 1]) + Tells(io, messages[|messages| - 1])
  }

  predicate Closes(e: GuiEvent) { e.SessionFailed? || e.ShutdownFinished? || e.ThreadFinished? }

  /** A turn reads on past messages that need nothing, up to the first that does or the end of its budget. */
  predicate ReadsTo(incoming: seq<Received>, budget: nat, n: nat) {
    && n <= budget && n <= |incoming|
    && (forall k :: 0 <= k < n - 1 ==> ReadPast(incoming[k]))
    && (n < budget && n < |incoming| ==> n > 0 && !ReadPast(incoming[n - 1]))
  }

  /** Before and after a turn that read `n` messages. */
  predicate Turned(io: Io, io': Io, n: nat)
    requires n <= |io.incoming|
  {
    && io'.incoming == io.incoming[n..] && io'.emitted == io.emitted + TellsAll(io, io.incoming[..n])
    && (io'.awaitingGui <==> n > 0 && NeedsAnswer(io.incoming[n - 1]))
    && (io'.terminal <==> n > 0 && !ReadPast(io.incoming[n - 1]) && !NeedsAnswer(io.incoming[n - 1]))
    && (io'.pollTimer <==> io.pollTimer && !io'.awaitingGui && !io'.terminal)
    && (!io'.terminal ==> io'.pendingCommand == io.pendingCommand && io'.sendDeadline == io.sendDeadline
                          && io'.shutdownDeadline == io.shutdownDeadline)
    && (io'.terminal ==> io'.pendingCommand == 0 && !io'.sendDeadline && !io'.shutdownDeadline)
    && io'.generation == io.generation && io'.authority == io.authority && io'.started == io.started && io'.stopping == io.stopping
  }

  lemma {:induction false} TellsPrepend(io: Io, r: Received, messages: seq<Received>)
    ensures TellsAll(io, [r] + messages) == Tells(io, r) + TellsAll(io, messages)
    decreases messages
  {
    hide Tells;
    if messages == [] {
      assert [r] + messages == [r] && [r][..0] == [];
      TellsOne(io, r);
    } else {
      var front := messages[..|messages| - 1];
      TellsPrepend(io, r, front);
      assert ([r] + messages)[..|messages|] == [r] + front;
    }
  }

  lemma TellsOne(io: Io, r: Received)
    ensures TellsAll(io, [r]) == Tells(io, r)
  {
    hide Tells;
    assert [r][..0] == [];
    assert TellsAll(io, []) == [];
  }

  /** What is told depends on who the agent is and whether it is stopping. */
  lemma {:induction false} TellsSame(io: Io, io': Io, messages: seq<Received>)
    requires io'.generation == io.generation && io'.authority == io.authority && io'.stopping == io.stopping
    ensures TellsAll(io', messages) == TellsAll(io, messages)
    decreases messages
  {
    if messages != [] { TellsSame(io, io', messages[..|messages| - 1]); }
  }

  lemma OneRead(io: Io, received: Received)
    requires !io.terminal && !io.awaitingGui
    ensures var (next, more) := Receive(io, received);
      && (more <==> ReadPast(received)) && next.emitted == io.emitted + Tells(io, received)
      && (ReadPast(received) ==> next == io.(emitted := next.emitted))
      && (NeedsAnswer(received) ==> next == io.(emitted := next.emitted, awaitingGui := true, pollTimer := false))
      && (!ReadPast(received) && !NeedsAnswer(received) ==> next == Close(io).(emitted := next.emitted))
  {}

  /** The exact effect of a turn: which messages it reads, what it tells of them, and whether it waits or closes after the last. */
  lemma {:induction false} TurnReadsExactly(io: Io, budget: nat) returns (n: nat)
    requires !io.terminal && !io.awaitingGui
    ensures ReadsTo(io.incoming, budget, n) && Turned(io, PollTurn(io, budget), n)
    decreases budget
  {
    hide Receive, Turned, ReadsTo, Tells, ReadPast, NeedsAnswer;
    if budget == 0 || io.incoming == [] {
      n := 0;
      NothingRead(io, budget);
    } else {
      var (head, rest) := (io.incoming[0], io.(incoming := io.incoming[1..]));
      OneRead(rest, head);
      var (next, more) := Receive(rest, head);
      if more {
        GoesOnWith(io, rest, next, head);
        var m := TurnReadsExactly(next, budget - 1);
        n := m + 1;
        TurnGoesOn(io, next, budget, m, PollTurn(next, budget - 1));
      } else {
        n := 1;
        TurnStops(io, budget);
      }
    }
  }

  lemma NothingRead(io: Io, budget: nat)
    requires !io.terminal && !io.awaitingGui && (budget == 0 || io.incoming == [])
    ensures ReadsTo(io.incoming, budget, 0) && Turned(io, io, 0)
  {
    assert io.incoming[0..] == io.incoming;
  }

  lemma GoesOnWith(io: Io, rest: Io, next: Io, head: Received)
    requires rest == io.(incoming := rest.incoming) && next == rest.(emitted := rest.emitted + Tells(rest, head))
    ensures next == io.(incoming := rest.incoming, emitted := io.emitted + Tells(io, head))
  {}

  lemma TurnStops(io: Io, budget: nat)
    requires !io.terminal && !io.awaitingGui && io.incoming != [] && budget > 0 && !ReadPast(io.incoming[0])
    ensures ReadsTo(io.incoming, budget, 1) && Turned(io, Receive(io.(incoming := io.incoming[1..]), io.incoming[0]).0, 1)
  {
    var rest := io.(incoming := io.incoming[1..]);
    OneRead(rest, io.incoming[0]);
    hide Receive;
    assert io.incoming[..1] == [io.incoming[0]];
    TellsOne(io, io.incoming[0]);
    hide TellsAll;
  }

  lemma TurnGoesOn(io: Io, next: Io, budget: nat, m: nat, last: Io)
    requires !io.terminal && !io.awaitingGui && io.incoming != [] && budget > 0 && ReadPast(io.incoming[0])
    requires next == io.(incoming := io.incoming[1..], emitted := io.emitted + Tells(io, io.incoming[0]))
    requires ReadsTo(next.incoming, budget - 1, m) && Turned(next, last, m)
    ensures ReadsTo(io.incoming, budget, m + 1) && Turned(io, last, m + 1)
  {
    hide Tells, Turned, TellsAll;
    var head := io.incoming[0];
    assert io.incoming[..m + 1] == [head] + next.incoming[..m];
    TellsPrepend(io, head, next.incoming[..m]);
    TellsSame(io, next, next.incoming[..m]);
    ReadsOn(io.incoming, budget, m);
    TurnedOn(io, io.(incoming := io.incoming[1..]), next, m, last);
  }

  lemma ReadsOn(incoming: seq<Received>, budget: nat, m: nat)
    requires incoming != [] && budget > 0 && ReadPast(incoming[0]) && ReadsTo(incoming[1..], budget - 1, m)
    ensures ReadsTo(incoming, budget, m + 1)
  {
    forall k | 0 <= k < m ensures ReadPast(incoming[k]) {
      if k > 0 { assert incoming[k] == incoming[1..][k - 1]; }
    }
    if m > 0 { assert incoming[m] == incoming[1..][m - 1]; }
  }

  lemma TurnedOn(io: Io, rest: Io, next: Io, m: nat, last: Io)
    requires io.incoming != [] && rest == io.(incoming := io.incoming[1..]) && ReadPast(io.incoming[0])
    requires next == rest.(emitted := rest.emitted + Tells(io, io.incoming[0])) && m <= |next.incoming| && Turned(next, last, m)
    requires !io.terminal && !io.awaitingGui
    requires TellsAll(next, next.incoming[..m]) == TellsAll(io, next.incoming[..m])
    requires TellsAll(io, io.incoming[..m + 1]) == Tells(io, io.incoming[0]) + TellsAll(io, next.incoming[..m])
    ensures Turned(io, last, m + 1)
  {
    hide Tells, TellsAll, ReadPast, NeedsAnswer;
    var (first, later) := (Tells(io, io.incoming[0]), TellsAll(io, next.incoming[..m]));
    assert io.emitted + first + later == io.emitted + (first + later);
    assert io.incoming[m + 1..] == next.incoming[m..];
    if m > 0 {
      assert io.incoming[m] == next.incoming[m - 1];
    } else {
      NeedsNothing(io.incoming[0]);
    }
  }

  lemma NeedsNothing(r: Received)
    requires ReadPast(r)
    ensures !NeedsAnswer(r)
  {}

  // ---- Every step of the agent -----------------------------------------------------------------

  /** The step makes the agent poll: its timer, its start, or a resume that it heeds. */
  predicate Polls(io: Io, toIo: seq<IoEvent>, a: Action) {
    && !io.terminal
    && ((a.StartIo? && !io.started && !io.awaitingGui)
        || (a.FirePollTimer? && io.started && io.pollTimer && !io.awaitingGui)
        || (a.DeliverToIo? && io.started && toIo != [] && toIo[0].ResumePolling? && !io.stopping))
  }

  /** The session's own authority goes with a use of it, and neither without the other. */
  predicate Permitted(io: Io, c: Command) {
    if c.authority.Some? then c.hasUse && c.authority == io.authority else !c.hasUse
  }

  function Failure(io: Io, error: Error): seq<GuiEvent> { [SessionFailed(io.generation, error)] }

  function Finished(io: Io, id: nat, success: bool, published: bool, error: Error): GuiEvent {
    CommandFinished(io.generation, id, success, published, error)
  }

  /** What is told in a step that does not poll. */
  function Reports(io: Io, toIo: seq<IoEvent>, a: Action): seq<GuiEvent> {
    var open := !io.terminal;
    if a.DeliverToIo? && io.started && toIo != [] then
      match toIo[0]
      case SendMessage(_, c) =>
        if !open || io.stopping then [Finished(io, c.id, false, false, StaleCommand)]
        else if !Permitted(io, c) then
          [Finished(io, c.id, false, false, CapabilityAuthorityMismatch)] + Failure(io, CapabilityAuthorityMismatch)
        else if !a.accepted then [Finished(io, c.id, false, false, SendFailed)] + Failure(io, SendFailed)
        else []
      case BeginShutdown(_) => if open && !io.stopping && !a.accepted then Failure(io, ShutdownSendFailed) else []
      case Abort(_) => [ThreadFinished(io.generation)]
      case ResumePolling(_) => []
    else if !io.started then []
    else if a.FireSendDeadline? then if open && io.sendDeadline && io.pendingCommand != 0 then Failure(io, SendTimeout) else []
    else if a.FireShutdownDeadline? then if open && io.shutdownDeadline && io.stopping then Failure(io, ShutdownTimeout) else []
    else if a.CompleteShutdownWrite? then if open && io.stopping && !a.written then Failure(io, ShutdownSendFailed) else []
    else if a.CompletePipeWrite? && open && io.pendingCommand == a.commandId then
      if a.status == Written then [Finished(io, a.commandId, true, true, NoError)]
      else if a.status == WriteCancelled && a.capabilitySend then [Finished(io, a.commandId, true, false, NoError)]
      else [Finished(io, a.commandId, false, false, SendFailed)] + Failure(io, SendFailed)
    else []
  }

  /** What the agent is about: the command at the pipe, whether it waits for the controller, polls, and is stopping. */
  datatype Standing = Standing(pending: nat, awaiting: bool, polling: bool, stopping: bool)

  function Stands(io: Io): Standing { Standing(io.pendingCommand, io.awaitingGui, io.pollTimer, io.stopping) }

  /** What it is about after a step that neither polls nor closes it. */
  function StandingAfter(io: Io, toIo: seq<IoEvent>, a: Action): Standing {
    var now := Stands(io);
    if a.StartIo? then now.(polling := io.pollTimer || !io.started)
    else if !io.started then now
    else if a.DeliverToIo? && toIo != [] && toIo[0].SendMessage? && !io.stopping && Permitted(io, toIo[0].command) && a.accepted then
      now.(pending := toIo[0].command.id)
    else if a.DeliverToIo? && toIo != [] && toIo[0].BeginShutdown? && !io.stopping then
      now.(awaiting := false, polling := true, stopping := true)
    else if a.CompletePipeWrite? && io.pendingCommand == a.commandId then now.(pending := 0)
    else now
  }

  /** `told` is what the step makes the agent tell; it closes exactly by telling why. */
  predicate Told(io: Io, io': Io, told: seq<GuiEvent>, after: Standing) {
    && io'.emitted == io.emitted + told
    && (io'.terminal <==> io.terminal || (told != [] && Closes(told[|told| - 1])))
    && (!io'.terminal ==> Stands(io') == after)
  }

  lemma FailTells(io: Io, io': Io, told: seq<GuiEvent>, error: Error, after: Standing)
    requires !io.terminal && !io'.terminal && io'.generation == io.generation && error != NoError && io'.emitted == io.emitted + told
    ensures Told(io, Fail(io', error), told + Failure(io, error), after)
  {
    assert io.emitted + told + Failure(io, error) == io.emitted + (told + Failure(io, error));
  }

  lemma SendTells(io: Io, command: Command, accepted: bool)
    requires io.started && io.pendingCommand == 0
    ensures var (toIo, a) := ([SendMessage(io.generation, command)], DeliverToIo(accepted));
      Told(io, SendCommand(io, io.generation, command, accepted), Reports(io, toIo, a), StandingAfter(io, toIo, a))
  {
    assert io.emitted + [] == io.emitted;
    if !io.terminal {
      var (id, after) := (command.id, StandingAfter(io, [SendMessage(io.generation, command)], DeliverToIo(accepted)));
      var mismatch := Finished(io, id, false, false, CapabilityAuthorityMismatch);
      var failed := Finished(io, id, false, false, SendFailed);
      FailTells(io, Emit(io, mismatch), [mismatch], CapabilityAuthorityMismatch, after);
      FailTells(io, Emit(io, failed), [failed], SendFailed, after);
      hide Fail;
    }
  }

  lemma ReportTells(io: Io, commandId: nat, capabilitySend: bool, status: WriteStatus)
    requires io.started
    ensures var a := CompletePipeWrite(commandId, capabilitySend, status);
      Told(io, CompleteSend(io, io.generation, commandId, capabilitySend, status), Reports(io, [], a), StandingAfter(io, [], a))
  {
    assert io.emitted + [] == io.emitted;
  }

  lemma DeadlinesTell(io: Io, written: bool)
    requires io.started
    ensures Told(io, SendDeadlineFires(io), Reports(io, [], FireSendDeadline), StandingAfter(io, [], FireSendDeadline))
    ensures Told(io, ShutdownDeadlineFires(io), Reports(io, [], FireShutdownDeadline), StandingAfter(io, [], FireShutdownDeadline))
    ensures io.stopping ==>
              Told(io, CompleteShutdownSend(io, io.generation, written), Reports(io, [], CompleteShutdownWrite(written)),
                   StandingAfter(io, [], CompleteShutdownWrite(written)))
  {
    assert io.emitted + [] == io.emitted;
  }

  lemma CallsTell(io: Io, accepted: bool)
    requires io.started
    ensures var (toIo, a) := ([BeginShutdown(io.generation)], DeliverToIo(accepted));
      Told(io, BeginIoShutdown(io, io.generation, accepted), Reports(io, toIo, a), StandingAfter(io, toIo, a))
    ensures var (toIo, a) := ([Abort(io.generation)], DeliverToIo(accepted));
      Told(io, AbortIo(io, io.generation), Reports(io, toIo, a), StandingAfter(io, toIo, a))
  {
    assert io.emitted + [] == io.emitted;
  }

  /** An agent that starts its turn. */
  function Roused(io: Io): Io { io.(started := true, awaitingGui := false, pollTimer := true) }

  /** The agent after a step, with what has just joined the controller's queue. */
  function Since(s: System, t: System): Io
    requires t.io.Some? && |s.toGui| <= |t.toGui|
  {
    t.io.value.(emitted := t.toGui[|s.toGui|..])
  }

  lemma AbsorbSince(s: System, io: Io, s': System)
    requires s'.toGui == s.toGui
    ensures var t := AbsorbIo(s', io); |s.toGui| <= |t.toGui| && t.toGui[..|s.toGui|] == s.toGui && Since(s, t) == io
  {}

  /** The step polls: its turn reads some of the messages. */
  lemma PollingStep(s: System, a: Action) returns (n: nat)
    requires s.io.Some? && !OnGuiThread(a) && Polls(s.io.value, s.toIo, a) && s.io.value.emitted == []
    requires forall e <- s.toIo :: e.generation == s.io.value.generation
    ensures var (io, t) := (s.io.value, Next(s, a));
      && t.io.Some? && s.toGui <= t.toGui
      && ReadsTo(io.incoming, MaxMessagesPerTurn, n) && Turned(Roused(io), Since(s, t), n)
  {
    hide Turned, ReadsTo, PollTurn;
    var io := s.io.value;
    n := TurnReadsExactly(Roused(io), MaxMessagesPerTurn);
    var next := PollTurn(Roused(io), MaxMessagesPerTurn);
    if a.DeliverToIo? {
      assert s.toIo[0] in s.toIo;
      AbsorbSince(s, next, s.(toIo := s.toIo[1..]));
    } else {
      assert Roused(io) == if a.StartIo? then io.(started := true, pollTimer := true) else io;
      AbsorbSince(s, next, s);
    }
  }

  lemma TakenTells(s: System, accepted: bool)
    requires s.io.Some? && s.io.value.started && s.toIo != [] && s.io.value.emitted == []
    requires s.toIo[0].generation == s.io.value.generation && !Polls(s.io.value, s.toIo, DeliverToIo(accepted))
    requires s.toIo[0].SendMessage? ==> s.io.value.pendingCommand == 0
    ensures var (io, t, a) := (s.io.value, Next(s, DeliverToIo(accepted)), DeliverToIo(accepted));
      && t.io.Some? && s.toGui <= t.toGui && Told(io, Since(s, t), Reports(io, s.toIo, a), StandingAfter(io, s.toIo, a))
  {
    hide Told, SendCommand, BeginIoShutdown, AbortIo, PollSession;
    var (io, e, taken) := (s.io.value, s.toIo[0], s.(toIo := s.toIo[1..]));
    match e
    case SendMessage(generation, command) =>
      SendTells(io, command, accepted);
      AbsorbSince(s, SendCommand(io, generation, command, accepted), taken.(delivered := s.delivered + [command.id]));
    case ResumePolling(generation) =>
      SameTells(io);
      AbsorbSince(s, io, taken);
    case BeginShutdown(generation) =>
      CallsTell(io, accepted);
      AbsorbSince(s, BeginIoShutdown(io, generation, accepted), taken);
    case Abort(generation) =>
      CallsTell(io, accepted);
      AbsorbSince(s, AbortIo(io, generation), taken);
  }

  lemma SameTells(io: Io)
    ensures Told(io, io, [], Stands(io)) && Told(io, io.(started := true), [], Stands(io))
    ensures var roused := io.(started := true, pollTimer := true); Told(io, roused, [], Stands(roused))
  {
    assert io.emitted + [] == io.emitted;
  }

  /** The step is one of the agent: a call, a timer, or a report from the pipe. */
  predicate OfAgent(a: Action) { !OnGuiThread(a) && !a.PeerSends? }

  /** The step has told `told`, or nothing if it is none. */
  predicate Stepped(s: System, t: System, told: seq<GuiEvent>, after: Standing)
    requires s.io.Some?
  {
    t.io.Some? && s.toGui <= t.toGui && Told(s.io.value, Since(s, t), told, after)
  }

  lemma AbsorbStepped(s: System, io: Io, told: seq<GuiEvent>, after: Standing)
    requires s.io.Some? && Told(s.io.value, io, told, after)
    ensures Stepped(s, AbsorbIo(s, io), told, after)
  {
    AbsorbSince(s, io, s);
  }

  lemma StayStepped(s: System)
    requires s.io.Some? && s.io.value.emitted == []
    ensures Stepped(s, s, [], Stands(s.io.value))
  {
    assert Since(s, s) == s.io.value;
    SameTells(s.io.value);
  }

  lemma ReportsOf(io: Io, toIo: seq<IoEvent>, a: Action)
    requires !a.DeliverToIo?
    ensures Reports(io, toIo, a) == Reports(io, [], a) && StandingAfter(io, toIo, a) == StandingAfter(io, [], a)
    ensures (!io.started && !a.StartIo?) || a.FirePollTimer? || a.PeerSends? || (a.StartIo? && io.started) ==>
              Reports(io, toIo, a) == [] && StandingAfter(io, toIo, a) == Stands(io)
    ensures a.StartIo? && !io.started ==>
              Reports(io, toIo, a) == [] && StandingAfter(io, toIo, a) == Stands(io.(started := true, pollTimer := true))
    ensures a.CompleteShutdownWrite? && !io.stopping ==> Reports(io, toIo, a) == [] && StandingAfter(io, toIo, a) == Stands(io)
  {}

  lemma StartSteps(s: System)
    requires s.io.Some? && !s.io.value.started && (s.io.value.terminal || s.io.value.awaitingGui)
    ensures Stepped(s, AbsorbIo(s, Start(s.io.value)), [], Stands(s.io.value.(started := true, pollTimer := true)))
  {
    hide PollTurn, Stepped, AbsorbIo;
    var io := s.io.value;
    assert io.emitted + [] == io.emitted;
    AbsorbStepped(s, Start(io), [], Stands(io.(started := true, pollTimer := true)));
  }

  lemma OtherTells(s: System, a: Action)
    requires s.io.Some? && OfAgent(a) && !a.DeliverToIo? && !Polls(s.io.value, s.toIo, a) && s.io.value.emitted == []
    requires a.CompletePipeWrite? ==> a.commandId in s.delivered
    ensures Stepped(s, Next(s, a), Reports(s.io.value, s.toIo, a), StandingAfter(s.io.value, s.toIo, a))
  {
    hide Told, Stepped, Reports, StandingAfter, SendDeadlineFires, ShutdownDeadlineFires, CompleteSend, CompleteShutdownSend, PollTurn,
         AbsorbIo;
    var io := s.io.value;
    StayStepped(s);
    ReportsOf(io, s.toIo, a);
    if a.StartIo? {
      SameTells(io);
      if !io.started { StartSteps(s); }
    } else if io.started {
      SameTells(io);
      DeadlinesTell(io, if a.CompleteShutdownWrite? then a.written else false);
      match a
      case FirePollTimer => if io.pollTimer { AbsorbStepped(s, io, [], Stands(io)); }
      case FireSendDeadline => AbsorbStepped(s, SendDeadlineFires(io), Reports(io, [], a), StandingAfter(io, [], a));
      case FireShutdownDeadline => AbsorbStepped(s, ShutdownDeadlineFires(io), Reports(io, [], a), StandingAfter(io, [], a));
      case CompletePipeWrite(commandId, capabilitySend, status) =>
        ReportTells(io, commandId, capabilitySend, status);
        AbsorbStepped(s, CompleteSend(io, io.generation, commandId, capabilitySend, status), Reports(io, [], a),
                      StandingAfter(io, [], a));
      case CompleteShutdownWrite(written) =>
        if io.stopping {
          AbsorbStepped(s, CompleteShutdownSend(io, io.generation, written), Reports(io, [], a), StandingAfter(io, [], a));
        }
      case _ =>
    }
  }

  lemma AgentFacts(s: System)
    requires Inv(s) && Safe(s) && s.io.Some?
    ensures s.io.value.emitted == [] && forall e <- s.toIo :: e.generation == s.io.value.generation
    ensures s.toIo != [] && s.toIo[0].SendMessage? ==> s.io.value.pendingCommand == 0
  {
    if s.toIo != [] { CountAppend(s.toIo[..1], s.toIo[1..], IsSend); assert s.toIo == s.toIo[..1] + s.toIo[1..]; }
  }

  /**
   What every step of the agent tells the controller, in every reachable state.  A step
   that polls reads messages up to the first that needs an answer, closes the session or
   is the eighth, and hands on what they ask and answer, in order; any other step reports
   exactly the fate of a command or the failure it meets.  The agent closes only by telling.
   */
  lemma AgentTellsExactly(s: System, a: Action) returns (n: nat)
    requires Reachable(s) && s.io.Some? && OfAgent(a)
    requires a.CompletePipeWrite? ==> a.commandId in s.delivered
    ensures var (io, t) := (s.io.value, Next(s, a));
      && t.io.Some? && s.toGui <= t.toGui
      && if Polls(io, s.toIo, a) then ReadsTo(io.incoming, MaxMessagesPerTurn, n) && Turned(Roused(io), Since(s, t), n)
         else Stepped(s, t, Reports(io, s.toIo, a), StandingAfter(io, s.toIo, a))
  {
    ReachableSafe(s);
    AgentFacts(s);
    hide Inv, Safe, Reachable, Told, Turned, ReadsTo, Next, Reports, StandingAfter, Since;
    n := 0;
    if Polls(s.io.value, s.toIo, a) {
      n := PollingStep(s, a);
    } else if a.DeliverToIo? && s.io.value.started && s.toIo != [] {
      assert s.toIo[0] in s.toIo;
      TakenTells(s, a.accepted);
    } else if a.DeliverToIo? {
      NothingTaken(s, a.accepted);
    } else {
      OtherTells(s, a);
    }
  }

  lemma NothingTaken(s: System, accepted: bool)
    requires s.io.Some? && !(s.io.value.started && s.toIo != []) && s.io.value.emitted == []
    ensures var (io, t, a) := (s.io.value, Next(s, DeliverToIo(accepted)), DeliverToIo(accepted));
      && t.io.Some? && s.toGui <= t.toGui && Told(io, Since(s, t), Reports(io, s.toIo, a), StandingAfter(io, s.toIo, a))
  {
    SameTells(s.io.value);
    AbsorbSince(s, s.io.value, s);
    assert Since(s, s) == s.io.value;
  }

  // ---- Every wait is bounded ----------------------------------------------------------------------

  /** An open agent has a deadline for the command at the pipe, and for its shutdown once it is stopping, and only then. */
  predicate Timed(io: Io) {
    && (!io.terminal && io.pendingCommand != 0 ==> io.sendDeadline)
    && (!io.terminal ==> (io.stopping <==> io.shutdownDeadline))
  }

  lemma {:induction false} TurnTimed(io: Io, budget: nat)
    requires Timed(io)
    ensures Timed(PollTurn(io, budget))
    decreases budget
  {
    if budget > 0 && io.incoming != [] {
      var (next, more) := Receive(io.(incoming := io.incoming[1..]), io.incoming[0]);
      if more { TurnTimed(next, budget - 1); }
    }
  }

  lemma CallsTimed(io: Io, e: IoEvent, accepted: bool)
    requires Timed(io) && e.generation == io.generation
    ensures e.SendMessage? ==> Timed(SendCommand(io, e.generation, e.command, accepted))
    ensures e.ResumePolling? ==> Timed(ResumeIo(io, e.generation))
    ensures Timed(BeginIoShutdown(io, e.generation, accepted)) && Timed(AbortIo(io, e.generation)) && Timed(Start(io))
    ensures Timed(PollSession(io))
  {
    hide PollTurn;
    TurnTimed(io, MaxMessagesPerTurn);
    TurnTimed(io.(awaitingGui := false, pollTimer := true), MaxMessagesPerTurn);
    TurnTimed(io.(started := true, pollTimer := true), MaxMessagesPerTurn);
  }

  lemma TimersTimed(io: Io, commandId: nat, flag: bool, status: WriteStatus)
    requires Timed(io)
    ensures Timed(SendDeadlineFires(io)) && Timed(ShutdownDeadlineFires(io))
    ensures Timed(CompleteSend(io, io.generation, commandId, flag, status)) && Timed(CompleteShutdownSend(io, io.generation, flag))
  {}

  lemma AgentTimed(s: System, a: Action)
    requires s.io.Some? && Timed(s.io.value) && !OnGuiThread(a)
    requires forall e <- s.toIo :: e.generation == s.io.value.generation
    ensures Next(s, a).io.Some? && Timed(Next(s, a).io.value)
  {
    hide Timed, SendCommand, ResumeIo, BeginIoShutdown, AbortIo, PollSession, SendDeadlineFires, ShutdownDeadlineFires, CompleteSend,
         CompleteShutdownSend, Start, AbsorbIo, DeliverIo;
    var io := s.io.value;
    CallsTimed(io, Abort(io.generation), false);
    match a
    case PeerSends(received) => TimedAlike(io, [], io.incoming + [received]);
    case StartIo => AbsorbTimed(s, Start(io));
    case DeliverToIo(accepted) => if s.toIo != [] { TakenTimed(s, accepted); }
    case FirePollTimer => AbsorbTimed(s, PollSession(io));
    case FireSendDeadline =>
      TimersTimed(io, 0, false, Written);
      AbsorbTimed(s, SendDeadlineFires(io));
    case FireShutdownDeadline =>
      TimersTimed(io, 0, false, Written);
      AbsorbTimed(s, ShutdownDeadlineFires(io));
    case CompletePipeWrite(commandId, capabilitySend, status) =>
      TimersTimed(io, commandId, capabilitySend, status);
      AbsorbTimed(s, CompleteSend(io, io.generation, commandId, capabilitySend, status));
    case CompleteShutdownWrite(written) =>
      TimersTimed(io, 0, written, Written);
      AbsorbTimed(s, CompleteShutdownSend(io, io.generation, written));
    case _ =>
  }

  lemma TakenTimed(s: System, accepted: bool)
    requires s.io.Some? && Timed(s.io.value) && s.toIo != [] && s.toIo[0].generation == s.io.value.generation
    ensures var t := Next(s, DeliverToIo(accepted)); t.io.Some? && Timed(t.io.value)
  {
    hide Timed, SendCommand, ResumeIo, BeginIoShutdown, AbortIo;
    var (io, e, taken) := (s.io.value, s.toIo[0], s.(toIo := s.toIo[1..]));
    CallsTimed(io, e, accepted);
    match e
    case SendMessage(generation, command) =>
      AbsorbTimed(taken.(delivered := s.delivered + [command.id]), SendCommand(io, generation, command, accepted));
    case ResumePolling(generation) => AbsorbTimed(taken, ResumeIo(io, generation));
    case BeginShutdown(generation) => AbsorbTimed(taken, BeginIoShutdown(io, generation, accepted));
    case Abort(generation) => AbsorbTimed(taken, AbortIo(io, generation));
  }

  /** The controller keeps the agent, drops it, or makes a new one. */
  predicate KeptOrNew(before: Option<Io>, after: Option<Io>) {
    after == before || after.None? || after.value == NewIo(after.value.generation, after.value.authority)
  }

  lemma DeliveryKeepsAgent(s: System, valid: bool, outcome: StartOutcome)
    requires s.toGui != []
    ensures KeptOrNew(s.io, Deliver(PopGui(s), s.toGui[0], valid, outcome).io)
  {
    hide NavigationArrives, RouteResponseArrives, CommandFinishes, SessionFailureArrives, ShutdownFinishes, ThreadFinishes, Absorb;
    var (t, c) := (PopGui(s), s.gui);
    match s.toGui[0]
    case NavigationRequested(g, id, route) =>
      var (d, frames) := NavigationArrives(c, g, id, route, valid);
      AbsorbKeepsAgent(t, d, frames);
    case RouteLoadResponse(g, loadId, ok, route) =>
      var (d, frames) := RouteResponseArrives(c, g, loadId, ok, route);
      var matches := g == c.life.generation && ok && loadId in s.requested && s.requested[loadId] == route;
      AbsorbKeepsAgent(t.(answered := if matches then s.answered + {loadId} else s.answered), d, frames);
    case CapabilityRequested(authority, g, id) => AbsorbKeepsAgent(t, c, CapabilityArrives(c, authority, g, id).1);
    case CommandFinished(g, id, success, published, error) =>
      var (d, frames) := CommandFinishes(c, g, id, success, published, error);
      AbsorbKeepsAgent(t, d, frames);
    case SessionFailed(g, error) => AbsorbKeepsAgent(t, SessionFailureArrives(c, g, error), []);
    case PostedFailure(g, error) => AbsorbKeepsAgent(t, SessionFailureArrives(c, g, error), []);
    case ShutdownFinished(g) => AbsorbKeepsAgent(t, ShutdownFinishes(c, g), []);
    case ThreadFinished(g) => AbsorbKeepsAgent(t, ThreadFinishes(c, g, outcome), []);
  }

  lemma ReturnKeepsAgent(s: System, a: Action)
    requires s.frames != [] && a.ReturnFromObserver?
    ensures KeptOrNew(s.io, Return(PopFrame(s), s.frames[|s.frames| - 1], a.navigation, a.hasUse, a.valid, a.loadValid).io)
  {
    hide NavigationReturns, AcknowledgementReturns, CapabilityObserved, SentReportReturns, Absorb;
    var (t, f) := (PopFrame(s), s.frames[|s.frames| - 1]);
    match f
    case Navigating(g, id, route) =>
      AbsorbKeepsAgent(t, NavigationReturns(s.gui, g, id, route, a.navigation, a.valid, a.loadValid), []);
    case Acknowledging(g) => AbsorbKeepsAgent(t, AcknowledgementReturns(s.gui, g), []);
    case ObservingCapability(authority, g, id) =>
      AbsorbKeepsAgent(t, CapabilityObserved(s.gui, authority, g, id, a.hasUse, a.valid), []);
    case ReportingSent(g, resume) => AbsorbKeepsAgent(t, SentReportReturns(s.gui, g, resume), []);
  }

  lemma AbsorbKeepsAgent(s: System, d: Gui, frames: seq<Frame>)
    ensures KeptOrNew(s.io, Absorb(s, d, frames).io)
  {}

  lemma GuiKeepsAgent(s: System, a: Action)
    requires OnGuiThread(a)
    ensures KeptOrNew(s.io, Next(s, a).io)
  {
    hide RequestRouteLoad, SendVisibilityChanged, Shutdown, Attach, UnbindCapabilityRuntime, SubmitCapabilityCompletion, Deliver, Return,
         Absorb;
    var c := s.gui;
    match a
    case CallRequestRouteLoad(route, valid) => AbsorbKeepsAgent(s, RequestRouteLoad(c, route, valid).0, []);
    case CallSendVisibility(visible) => AbsorbKeepsAgent(s, SendVisibilityChanged(c, visible).0, []);
    case CallShutdown(hasReason) => AbsorbKeepsAgent(s, Shutdown(c, hasReason).0, []);
    case CallAttach(authority, outcome) => AbsorbKeepsAgent(s, Attach(c, authority, outcome).0, []);
    case CallUnbind(bound) => AbsorbKeepsAgent(s, UnbindCapabilityRuntime(c, bound), []);
    case CompleteDispatch(i, hasUse, result, valid) =>
      if i < |s.outstanding| {
        AbsorbKeepsAgent(Completed(s, i), SubmitCapabilityCompletion(c, s.outstanding[i], hasUse, result, valid).0, []);
      }
    case DeliverToGui(valid, outcome) => if s.toGui != [] { DeliveryKeepsAgent(s, valid, outcome); }
    case ReturnFromObserver(_, _, _, _) => if s.frames != [] { ReturnKeepsAgent(s, a); }
    case _ =>
  }

  lemma {:induction false} TraceTimed(states: seq<System>, actions: seq<Action>, n: nat)
    requires Trace(states, actions) && n <= |actions|
    ensures states[n].io.Some? ==> Timed(states[n].io.value)
  {
    if n > 0 {
      TraceTimed(states, actions, n - 1);
      TraceSafe(states, actions, n - 1);
      var (s, a) := (states[n - 1], actions[n - 1]);
      assert states[n - 1 + 1] == Next(s, a);
      hide Next;
      if OnGuiThread(a) {
        GuiKeepsAgent(s, a);
      } else if s.io.Some? {
        AgentFacts(s);
        AgentTimed(s, a);
      } else {
        NoAgent(s, a);
      }
    }
  }

  lemma NoAgent(s: System, a: Action)
    requires s.io.None? && !OnGuiThread(a)
    ensures Next(s, a).io.None?
  {}

  /** Nothing waits without a deadline, in any reachable state: neither a command at an open pipe nor a shutdown. */
  lemma EveryWaitIsBounded(s: System)
    requires Reachable(s) && s.io.Some?
    ensures Timed(s.io.value)
  {
    var states, actions :| Trace(states, actions) && states[|actions|] == s;
    TraceTimed(states, actions, |actions|);
  }

  /** The queues at the agent's ends have no part in it. */
  lemma TimedAlike(io: Io, emitted: seq<GuiEvent>, incoming: seq<Received>)
    ensures Timed(io.(emitted := emitted)) == Timed(io) && Timed(io.(incoming := incoming)) == Timed(io)
  {}

  lemma AbsorbTimed(s: System, io: Io)
    requires Timed(io)
    ensures AbsorbIo(s, io).io.Some? && Timed(AbsorbIo(s, io).io.value)
  {
    TimedAlike(io, [], []);
  }
}
