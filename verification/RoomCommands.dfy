/**
 * The command queue of a room: callers enqueue under the registry lock, one worker executes in order, and a close can
 * be refused by the session, which reopens the queue. Enqueueing a close is two steps, the send and the store that
 * stops further commands, and the worker may run between them.
 */
module RoomCommands {
  import opened Prelude

  datatype Command =
    | Offer(offerId: string, transferInvite: string, rootNames: seq<string>, itemCount: nat, directoryCount: nat,
        totalBytes: nat)
    | Respond(offerId: string, accept: bool)
    | Policy(policy: string)
    | TransferActive(active: bool)
    | Close(reason: string)
    | Ping(nonce: nat)

  datatype CloseReason =
    UserEnded | IdleExpired | InvitationExpired | PeerEnded | Backgrounded | NetworkLost | ProtocolFailure

  datatype LifetimePolicy = Idle15Minutes | UntilForegroundEnds

  /** Session errors: bad input is told apart, everything else is one case. */
  datatype CoreError = InvalidInput | OtherError

  /** A lifetime revision, where the session reports one. */
  type Outcome = Result<Option<nat>, CoreError>

  function ParseCloseReason(value: string): Option<CloseReason> {
    if value == "user_ended" then Some(UserEnded)
    else if value == "idle_expired" then Some(IdleExpired)
    else if value == "invitation_expired" then Some(InvitationExpired)
    else if value == "peer_ended" then Some(PeerEnded)
    else if value == "backgrounded" then Some(Backgrounded)
    else if value == "network_lost" then Some(NetworkLost)
    else if value == "protocol_failure" then Some(ProtocolFailure)
    else None
  }

  function CloseReasonWire(reason: CloseReason): string {
    match reason
    case UserEnded => "user_ended"
    case IdleExpired => "idle_expired"
    case InvitationExpired => "invitation_expired"
    case PeerEnded => "peer_ended"
    case Backgrounded => "backgrounded"
    case NetworkLost => "network_lost"
    case ProtocolFailure => "protocol_failure"
  }

  function ParsePolicy(value: string): Option<LifetimePolicy> {
    if value == "idle_15_minutes" then Some(Idle15Minutes)
    else if value == "until_foreground_ends" then Some(UntilForegroundEnds)
    else None
  }

  /** The wire names and the parser are inverse to each other. */
  lemma CloseReasonRoundTrip(value: string, reason: CloseReason)
    ensures ParseCloseReason(value) == Some(reason) <==> value == CloseReasonWire(reason)
  {
    var wires := ["user_ended", "idle_expired", "invitation_expired", "peer_ended", "backgrounded", "network_lost",
                  "protocol_failure"];
    assert |wires[0]| == 10 && |wires[1]| == 12 && |wires[2]| == 18 && |wires[3]| == 10 && |wires[4]| == 12
        && |wires[5]| == 12 && |wires[6]| == 16;
    assert wires[0][0] == 'u' && wires[3][0] == 'p' && wires[1][0] == 'i' && wires[4][0] == 'b' && wires[5][0] == 'n';
  }

  /** What the session's answer becomes: text that does not parse never reaches the session. */
  function ExecuteCommand(command: Command, session: Outcome): Outcome {
    match command
    case Policy(policy) => if ParsePolicy(policy).None? then Err(InvalidInput) else session
    case Close(reason) =>
      if ParseCloseReason(reason).None? then Err(InvalidInput)
      else if session.Err? then session
      else Ok(None)
    case Ping(_) => if session.Err? then session else Ok(None)
    case _ => session
  }

  /** A close with a known reason ends the room; any other close is just a command that fails. */
  predicate Terminal(command: Command) {
    command.Close? && ParseCloseReason(command.reason).Some?
  }

  datatype Notice =
    | Closed(reason: CloseReason)
    | Failed
    | CommandFailed(command: Command)
    | LifetimeChanged(revision: nat)
    | OfferResponseSent(offerId: string, accepted: bool)
    | Panicked

  datatype Settlement = SettledClosed | SettledRejected | SettledFailed

  function Settle(result: Outcome): Settlement {
    match result
    case Ok(_) => SettledClosed
    case Err(InvalidInput) => SettledRejected
    case Err(OtherError) => SettledFailed
  }

  /** What the worker reports for one executed command; the last arm is the one the source calls unreachable. */
  function Report(command: Command, result: Outcome): seq<Notice> {
    if Terminal(command) then
      match Settle(result)
      case SettledClosed => [Closed(ParseCloseReason(command.reason).value)]
      case SettledRejected => [CommandFailed(command)]
      case SettledFailed => [Failed]
    else if result.Err? then [CommandFailed(command)]
    else
      (if result.value.Some? then [LifetimeChanged(result.value.value)] else [])
      + match command
        case Respond(offerId, accept) => [OfferResponseSent(offerId, accept)]
        case Close(_) => [Panicked]
        case _ => []
  }

  // ---------------------------------------------------------------------------------------------
  // The machine
  // ---------------------------------------------------------------------------------------------

  datatype Worker = Idle | Executing(command: Command) | Leaving | Stopped

  /**
   * `storing` is an enqueued close whose caller still holds the registry lock. `accepted`, `executed`, `reported` and
   * `raced` are history: raced records a refused close that settled before its own caller had stored.
   */
  datatype State = State(
    registered: bool,
    connected: bool,
    accepting: bool,
    closing: bool,
    storing: bool,
    queue: seq<Command>,
    worker: Worker,
    accepted: seq<Command>,
    executed: seq<Command>,
    reported: seq<Notice>,
    raced: bool
  )

  const Initial := State(true, false, true, false, false, [], Idle, [], [], [], false)

  datatype Event = Connect | Send(command: Command) | Store | Take | Finish(session: Outcome) | Remove

  datatype Refusal = NotConnected | IsClosing | QueueClosed

  function Admission(s: State): Result<(), Refusal> {
    if !s.registered then Err(NotConnected)
    else if !s.accepting then Err(IsClosing)
    else if !s.connected then Err(NotConnected)
    else if s.worker.Stopped? then Err(QueueClosed)
    else Ok(())
  }

  /** The registry lock keeps callers and removal apart; the worker runs at any time. */
  predicate Enabled(s: State, e: Event) {
    match e
    case Connect => !s.storing && s.registered && !s.connected
    case Send(_) => !s.storing
    case Store => s.storing
    case Take => s.connected && s.worker.Idle? && s.queue != []
    case Finish(_) => s.worker.Executing?
    case Remove => !s.storing && s.worker.Leaving?
  }

  /** The worker has executed its command: only a valid close that was not refused ends the loop. */
  function Settled(s: State, notices: seq<Notice>, how: Settlement): State
    requires s.worker.Executing?
  {
    var done := s.(executed := s.executed + [s.worker.command], reported := s.reported + notices);
    if !Terminal(s.worker.command) then done.(worker := Idle)
    else if how.SettledRejected? then
      done.(worker := Idle, closing := false, accepting := true, raced := s.raced || s.storing)
    else done.(worker := Leaving)
  }

  function Step(s: State, e: Event): State
    requires Enabled(s, e)
  {
    match e
    case Connect => s.(connected := true)
    case Send(command) =>
      if Admission(s).Err? then s
      else s.(queue := s.queue + [command], accepted := s.accepted + [command], storing := Terminal(command))
    case Store => s.(accepting := false, storing := false)
    case Take =>
      var rest := s.(queue := s.queue[1..]);
      if s.closing then rest.(worker := Stopped)
      else rest.(worker := Executing(s.queue[0]), closing := Terminal(s.queue[0]))
    case Finish(session) =>
      var result := ExecuteCommand(s.worker.command, session);
      Settled(s, Report(s.worker.command, result), Settle(result))
    case Remove => s.(registered := false, worker := Stopped)
  }

  /** Accepted and not yet executed, in order. */
  function Outstanding(s: State): seq<Command> {
    (if s.worker.Executing? then [s.worker.command] else []) + s.queue
  }

  predicate HasTerminal(commands: seq<Command>) {
    exists i :: 0 <= i < |commands| && Terminal(commands[i])
  }

  predicate OnlyLastTerminal(commands: seq<Command>) {
    forall i :: 0 <= i < |commands| - 1 ==> !Terminal(commands[i])
  }

  /**
   * The order of commands, and the exact meaning of the two flags: closing while a close is being executed or has ended
   * the room, accepting unless a close is outstanding, the room has ended, or a reopening was overwritten.
   */
  predicate Inv(s: State) {
    && s.accepted == s.executed + Outstanding(s)
    && OnlyLastTerminal(Outstanding(s))
    && (s.closing <==> (s.worker.Executing? && Terminal(s.worker.command)) || s.worker.Leaving? || s.worker.Stopped?)
    && (s.worker.Leaving? || s.worker.Stopped? ==> s.queue == [])
    && (s.worker.Stopped? ==> !s.storing)
    && (s.worker.Stopped? <==> !s.registered)
    && (s.storing ==> HasTerminal(Outstanding(s)) || s.worker.Leaving? || s.raced)
    && (!s.connected ==> s.queue == [] && s.worker.Idle? && !s.storing)
    && (s.accepting <==>
          s.storing || (!HasTerminal(Outstanding(s)) && (s.worker.Idle? || s.worker.Executing?) && !s.raced))
    && (s.raced ==> Outstanding(s) == [] && s.worker.Idle?)
  }

  lemma InitialInv()
    ensures Inv(Initial)
  {
  }

  lemma SendKeepsInv(s: State, command: Command)
    requires Inv(s) && Enabled(s, Send(command))
    ensures Inv(Step(s, Send(command)))
  {
    var next := Step(s, Send(command));
    if Admission(s).Ok? {
      var before, after := Outstanding(s), Outstanding(next);
      assert after == before + [command];
      assert forall i :: 0 <= i < |before| ==> after[i] == before[i] && !Terminal(before[i]);
      assert after[|before|] == command;
      assert s.executed + after == (s.executed + before) + [command];
      if !Terminal(command) { assert !HasTerminal(after); }
    }
  }

  lemma TakeKeepsInv(s: State)
    requires Inv(s) && Enabled(s, Take)
    ensures Inv(Step(s, Take)) && Outstanding(Step(s, Take)) == Outstanding(s)
  {
    assert s.queue == [s.queue[0]] + s.queue[1..];
    var out := Outstanding(s);
    assert out == s.queue && out[0] == s.queue[0];
  }

  /** Taking the first command off: what a terminal first or a terminal-free rest means. */
  lemma FirstOf(command: Command, queue: seq<Command>)
    requires OnlyLastTerminal([command] + queue)
    ensures OnlyLastTerminal(queue) && (Terminal(command) ==> queue == [])
    ensures HasTerminal([command] + queue) <==> Terminal(command) || HasTerminal(queue)
  {
    var all := [command] + queue;
    assert all[0] == command && all[1..] == queue;
    forall i | 0 <= i < |queue| - 1
      ensures !Terminal(queue[i])
    {
      assert queue[i] == all[i + 1];
    }
    if i :| 0 <= i < |queue| && Terminal(queue[i]) { assert all[i + 1] == queue[i]; }
    if i :| 0 <= i < |all| && Terminal(all[i]) {
      if i > 0 { assert queue[i - 1] == all[i]; }
    }
  }

  lemma SettledKeepsInv(s: State, notices: seq<Notice>, how: Settlement)
    requires Inv(s) && s.worker.Executing?
    ensures Inv(Settled(s, notices, how)) && Outstanding(Settled(s, notices, how)) == s.queue
    ensures Terminal(s.worker.command) ==> s.queue == []
  {
    var command := s.worker.command;
    FirstOf(command, s.queue);
    assert s.executed + ([command] + s.queue) == (s.executed + [command]) + s.queue;
    var next := Settled(s, notices, how);
    assert Outstanding(next) == s.queue;
  }

  lemma StepKeepsInv(s: State, e: Event)
    requires Inv(s) && Enabled(s, e)
    ensures Inv(Step(s, e))
  {
    match e
    case Send(command) => SendKeepsInv(s, command);
    case Take => TakeKeepsInv(s);
    case Finish(session) =>
      var result := ExecuteCommand(s.worker.command, session);
      SettledKeepsInv(s, Report(s.worker.command, result), Settle(result));
    case Store => assert Outstanding(Step(s, e)) == Outstanding(s);
    case _ =>
  }

  // ---------------------------------------------------------------------------------------------
  // Every interleaving
  // ---------------------------------------------------------------------------------------------

  ghost predicate Runs(s: State, events: seq<Event>)
    decreases |events|
  {
    events == [] || (Enabled(s, events[0]) && Runs(Step(s, events[0]), events[1..]))
  }

  ghost function Run(s: State, events: seq<Event>): State
    requires Runs(s, events)
    decreases |events|
  {
    if events == [] then s else Run(Step(s, events[0]), events[1..])
  }

  predicate Ended(s: State) {
    s.worker.Leaving? || s.worker.Stopped?
  }

  predicate Final(notice: Notice) {
    notice.Closed? || notice.Failed?
  }

  /** The room ends once: its last notice, and only that, says so; the arm that must not be reached reports nothing. */
  predicate ReportsInv(s: State) {
    && Panicked !in s.reported
    && (forall i :: 0 <= i < |s.reported| && Final(s.reported[i]) ==> i == |s.reported| - 1 && Ended(s))
    && (Ended(s) ==> s.reported != [] && Final(s.reported[|s.reported| - 1]))
  }

  /** A command that does not end the room never reports the end, and a close that does not parse fails. */
  lemma ReportIsTame(command: Command, session: Outcome)
    ensures var result := ExecuteCommand(command, session); var notices := Report(command, result);
            && Panicked !in notices
            && (forall i :: 0 <= i < |notices| && Final(notices[i]) ==>
                  Terminal(command) && !Settle(result).SettledRejected? && i == |notices| - 1)
            && (Terminal(command) && !Settle(result).SettledRejected? ==> |notices| == 1 && Final(notices[0]))
  {
  }

  /** What the caller hears for each command and each answer of the session. */
  lemma ReportSays(command: Command, session: Outcome)
    ensures var notices := Report(command, ExecuteCommand(command, session));
            match command
            case Close(reason) =>
              if ParseCloseReason(reason).None? then notices == [CommandFailed(command)]
              else if session.Ok? then notices == [Closed(ParseCloseReason(reason).value)]
              else if session == Err(InvalidInput) then notices == [CommandFailed(command)]
              else notices == [Failed]
            case Respond(offerId, accept) =>
              if session.Err? then notices == [CommandFailed(command)]
              else if session.value.None? then notices == [OfferResponseSent(offerId, accept)]
              else notices == [LifetimeChanged(session.value.value), OfferResponseSent(offerId, accept)]
            case Policy(policy) =>
              if session.Err? || ParsePolicy(policy).None? then notices == [CommandFailed(command)]
              else notices == if session.value.None? then [] else [LifetimeChanged(session.value.value)]
            case Ping(_) => notices == if session.Err? then [CommandFailed(command)] else []
            case _ =>
              if session.Err? then notices == [CommandFailed(command)]
              else notices == if session.value.None? then [] else [LifetimeChanged(session.value.value)]
  {
    match command
    case Respond(offerId, accept) =>
      if session.Ok? && session.value.Some? {
        assert [LifetimeChanged(session.value.value)] + [OfferResponseSent(offerId, accept)]
            == [LifetimeChanged(session.value.value), OfferResponseSent(offerId, accept)];
      }
    case _ =>
  }

  lemma FinishKeepsReports(s: State, notices: seq<Notice>, how: Settlement)
    requires Inv(s) && ReportsInv(s) && s.worker.Executing? && Panicked !in notices
    requires forall i :: 0 <= i < |notices| && Final(notices[i]) ==>
               Terminal(s.worker.command) && !how.SettledRejected? && i == |notices| - 1
    requires Terminal(s.worker.command) && !how.SettledRejected? ==> |notices| == 1 && Final(notices[0])
    ensures ReportsInv(Settled(s, notices, how))
  {
    var next := Settled(s, notices, how);
    assert next.reported == s.reported + notices;
    forall i | 0 <= i < |next.reported| && Final(next.reported[i])
      ensures i == |next.reported| - 1 && Ended(next)
    {
      if i >= |s.reported| { assert next.reported[i] == notices[i - |s.reported|]; }
    }
  }

  lemma StepKeepsReports(s: State, e: Event)
    requires Inv(s) && ReportsInv(s) && Enabled(s, e)
    ensures ReportsInv(Step(s, e))
  {
    match e
    case Finish(session) =>
      var result := ExecuteCommand(s.worker.command, session);
      ReportIsTame(s.worker.command, session);
      FinishKeepsReports(s, Report(s.worker.command, result), Settle(result));
    case _ =>
  }

  predicate IsPrefix(a: seq<Command>, b: seq<Command>) {
    |a| <= |b| && a == b[..|a|]
  }

  /** What one step does to the histories: both only grow, and an ended or overwritten room takes nothing more. */
  lemma StepExtends(s: State, e: Event)
    requires Inv(s) && Enabled(s, e)
    ensures IsPrefix(s.accepted, Step(s, e).accepted) && IsPrefix(s.executed, Step(s, e).executed)
    ensures Ended(s) || (s.raced && !s.storing) ==> Step(s, e).accepted == s.accepted
    ensures Ended(s) ==> Ended(Step(s, e))
    ensures s.raced ==> Step(s, e).raced && (!s.storing ==> !Step(s, e).storing)
  {
  }

  lemma {:induction false} RunKeepsInv(s: State, events: seq<Event>)
    requires Inv(s) && ReportsInv(s) && Runs(s, events)
    ensures Inv(Run(s, events)) && ReportsInv(Run(s, events))
    ensures IsPrefix(s.accepted, Run(s, events).accepted) && IsPrefix(s.executed, Run(s, events).executed)
    ensures Ended(s) || (s.raced && !s.storing) ==> Run(s, events).accepted == s.accepted
    ensures Ended(s) ==> Ended(Run(s, events))
    ensures s.raced ==> Run(s, events).raced && (!s.storing ==> !Run(s, events).storing)
    decreases |events|
  {
    if events != [] {
      var next := Step(s, events[0]);
      StepKeepsInv(s, events[0]);
      StepKeepsReports(s, events[0]);
      StepExtends(s, events[0]);
      RunKeepsInv(next, events[1..]);
      PrefixTrans(s.accepted, next.accepted, Run(s, events).accepted);
      PrefixTrans(s.executed, next.executed, Run(s, events).executed);
    }
  }

  lemma PrefixTrans(a: seq<Command>, b: seq<Command>, c: seq<Command>)
    requires IsPrefix(a, b) && IsPrefix(b, c)
    ensures IsPrefix(a, c)
  {
    assert c[..|b|][..|a|] == c[..|a|];
  }

  /**
   * In every interleaving of callers and worker: what was executed is a prefix of what was accepted, in order; a valid
   * close that has not settled is the last command accepted; the unreachable arm is not reached; and once the room has
   * ended every accepted command has been executed and exactly the last notice says so.
   */
  lemma FifoSafety(events: seq<Event>)
    requires Runs(Initial, events)
    ensures var s := Run(Initial, events);
            && IsPrefix(s.executed, s.accepted)
            && s.accepted == s.executed + Outstanding(s)
            && (forall k :: |s.executed| <= k < |s.accepted| && Terminal(s.accepted[k]) ==> k == |s.accepted| - 1)
            && (Ended(s) ==> s.executed == s.accepted)
            && ReportsInv(s)
  {
    RunKeepsInv(Initial, events);
    var s := Run(Initial, events);
    forall k | |s.executed| <= k < |s.accepted| && Terminal(s.accepted[k])
      ensures k == |s.accepted| - 1
    {
      assert s.accepted[k] == Outstanding(s)[k - |s.executed|];
    }
    if Ended(s) { assert Outstanding(s) == []; }
  }

  /** After the room has ended no run accepts or executes anything more. */
  lemma EndIsForever(s: State, events: seq<Event>)
    requires Inv(s) && ReportsInv(s) && Ended(s) && Runs(s, events)
    ensures Ended(Run(s, events)) && Run(s, events).accepted == s.accepted && Run(s, events).executed == s.executed
  {
    RunKeepsInv(s, events);
    var t := Run(s, events);
    assert Outstanding(s) == [] && Outstanding(t) == [];
    assert t.executed == t.accepted == s.accepted == s.executed;
  }

  // ---------------------------------------------------------------------------------------------
  // Refused closes
  // ---------------------------------------------------------------------------------------------

  /** A step in which the session refuses a close whose caller has not yet stored. */
  predicate RefusedTooEarly(s: State, e: Event) {
    && e.Finish? && s.worker.Executing? && Terminal(s.worker.command) && s.storing
    && Settle(ExecuteCommand(s.worker.command, e.session)).SettledRejected?
  }

  ghost predicate EverRefusedTooEarly(s: State, events: seq<Event>)
    requires Runs(s, events)
    decreases |events|
  {
    events != [] && (RefusedTooEarly(s, events[0]) || EverRefusedTooEarly(Step(s, events[0]), events[1..]))
  }

  lemma SettledRaced(s: State, notices: seq<Notice>, how: Settlement)
    requires s.worker.Executing?
    ensures Settled(s, notices, how).raced
       <==> s.raced || (Terminal(s.worker.command) && how.SettledRejected? && s.storing)
  {
  }

  lemma RacedStep(s: State, e: Event)
    requires Enabled(s, e)
    ensures Step(s, e).raced <==> s.raced || RefusedTooEarly(s, e)
  {
    match e
    case Finish(session) =>
      var result := ExecuteCommand(s.worker.command, session);
      SettledRaced(s, Report(s.worker.command, result), Settle(result));
    case _ =>
  }

  lemma {:induction false} RacedIsRefusedTooEarly(s: State, events: seq<Event>)
    requires Runs(s, events)
    ensures Run(s, events).raced <==> s.raced || EverRefusedTooEarly(s, events)
    decreases |events|
  {
    if events != [] {
      RacedStep(s, events[0]);
      RacedIsRefusedTooEarly(Step(s, events[0]), events[1..]);
    }
  }

  /** Refusing a close loses nothing: everything accepted has been executed, and the room is not closing. */
  lemma RefusedCloseLosesNothing(s: State, session: Outcome)
    requires Inv(s) && s.worker.Executing? && Terminal(s.worker.command)
    requires Settle(ExecuteCommand(s.worker.command, session)).SettledRejected?
    ensures var next := Step(s, Finish(session));
            && Inv(next) && next.executed == next.accepted == s.accepted && next.queue == [] && !next.closing
            && next.accepting && next.worker.Idle?
            && (Admission(next).Ok? && (!s.storing ==> forall c :: Step(next, Send(c)).accepted == s.accepted + [c]))
  {
    StepKeepsInv(s, Finish(session));
    var result := ExecuteCommand(s.worker.command, session);
    SettledKeepsInv(s, Report(s.worker.command, result), Settle(result));
  }

  /**
   * Over every run, a connected room with nothing left to execute, nobody enqueueing and no end takes commands if and
   * only if no close was ever refused before its own caller had stored.
   */
  lemma IdleRoomAcceptsIff(events: seq<Event>)
    requires Runs(Initial, events)
    requires var s := Run(Initial, events); s.connected && !s.storing && !Ended(s) && Outstanding(s) == []
    ensures Admission(Run(Initial, events)).Ok? <==> !EverRefusedTooEarly(Initial, events)
  {
    RunKeepsInv(Initial, events);
    RacedIsRefusedTooEarly(Initial, events);
  }

  /** The overwritten reopening is permanent: no later run of callers and worker accepts a command. */
  lemma LostReopeningIsForever(s: State, events: seq<Event>)
    requires Inv(s) && ReportsInv(s) && s.raced && !s.storing && Runs(s, events)
    ensures Run(s, events).accepted == s.accepted && !Run(s, events).accepting && !Run(s, events).closing
  {
    RunKeepsInv(s, events);
  }

  /** The run leads to the state, with or without a refusal that came too early. */
  ghost predicate Leads(s: State, events: seq<Event>, t: State, early: bool) {
    Runs(s, events) && Run(s, events) == t && (EverRefusedTooEarly(s, events) <==> early)
  }

  lemma LeadsFrom(s: State, e: Event, next: State, rest: seq<Event>, t: State, early: bool)
    requires Enabled(s, e) && Step(s, e) == next && Leads(next, rest, t, early)
    ensures Leads(s, [e] + rest, t, RefusedTooEarly(s, e) || early)
  {
    assert ([e] + rest)[1..] == rest;
  }

  /**
   * Such a run exists for every valid reason: the worker takes and settles the close between the send and the store.
   */
  lemma ReopeningCanBeLost(reason: string)
    requires Terminal(Close(reason))
    ensures exists events, t ::
              Leads(Initial, events, t, true) && t.worker.Idle? && Outstanding(t) == []
                  && Admission(t) == Err(IsClosing)
  {
    var close, refuse := Close(reason), Finish(Err(InvalidInput));
    var s1 := Initial.(connected := true);
    var s2 := s1.(queue := [close], accepted := [close], storing := true);
    var s3 := s2.(queue := [], worker := Executing(close), closing := true);
    var s4 := s3.(worker := Idle, closing := false, executed := [close], reported := [CommandFailed(close)],
        raced := true);
    var t := s4.(accepting := false, storing := false);
    assert s1.queue + [close] == [close] && s1.accepted + [close] == [close] && s2.queue[1..] == [];
    assert s3.executed + [close] == [close] && s3.reported + [CommandFailed(close)] == [CommandFailed(close)];
    assert Leads(t, [], t, false);
    LeadsFrom(s4, Store, t, [], t, false);
    LeadsFrom(s3, refuse, s4, [Store] + [], t, false);
    var rest := [refuse] + ([Store] + []);
    LeadsFrom(s2, Take, s3, rest, t, true);
    LeadsFrom(s1, Send(close), s2, [Take] + rest, t, true);
    LeadsFrom(Initial, Connect, s1, [Send(close)] + ([Take] + rest), t, true);
  }

  // ---------------------------------------------------------------------------------------------
  // The worker loop with nobody enqueueing
  // ---------------------------------------------------------------------------------------------

  function ServeOne(s: State, session: Outcome): State
    requires Enabled(s, Take) && !s.storing && !s.closing
  {
    var done := Step(Step(s, Take), Finish(session));
    if done.worker.Leaving? then Step(done, Remove) else done
  }

  /** Serve commands, each with its own session answer, until the queue is empty or the room has ended. */
  function Drain(s: State, sessions: seq<Outcome>): State
    requires Inv(s) && s.connected && !s.storing && !s.worker.Executing? && |sessions| >= |s.queue|
    decreases |s.queue|
  {
    if s.queue == [] || !s.worker.Idle? then s
    else
      ServeOneKeepsInv(s, sessions[0]);
      Drain(ServeOne(s, sessions[0]), sessions[1..])
  }

  lemma ServeOneKeepsInv(s: State, session: Outcome)
    requires Inv(s) && Enabled(s, Take) && !s.storing
    ensures var next := ServeOne(s, session);
            && Inv(next) && next.connected && !next.storing && !next.worker.Executing? && !next.worker.Leaving?
            && |next.queue| < |s.queue| && next.accepted == s.accepted
  {
    TakeKeepsInv(s);
    var taken := Step(s, Take);
    StepKeepsInv(taken, Finish(session));
    var done := Step(taken, Finish(session));
    if done.worker.Leaving? { StepKeepsInv(done, Remove); }
  }

  predicate Drainable(s: State, sessions: seq<Outcome>) {
    Inv(s) && s.connected && !s.storing && !s.worker.Executing? && |sessions| >= |s.queue|
  }

  lemma DrainStep(s: State, sessions: seq<Outcome>, k: nat)
    requires k <= |sessions| && Drainable(s, sessions[k..]) && s.queue != [] && s.worker.Idle?
    ensures k < |sessions| && Enabled(s, Take) && !s.closing
    ensures var next := ServeOne(s, sessions[k]);
            && Drainable(next, sessions[k + 1..]) && |next.queue| < |s.queue|
            && Drain(next, sessions[k + 1..]) == Drain(s, sessions[k..])
  {
    ServeOneKeepsInv(s, sessions[k]);
    assert sessions[k..][0] == sessions[k] && sessions[k..][1..] == sessions[k + 1..];
  }

  /** Whatever the session answers, the loop leaves no accepted command unexecuted and accepts none. */
  lemma {:induction false} DrainExecutesAll(s: State, sessions: seq<Outcome>)
    requires Inv(s) && s.connected && !s.storing && !s.worker.Executing? && |sessions| >= |s.queue|
    ensures var t := Drain(s, sessions);
            && Inv(t) && t.executed == t.accepted == s.accepted && t.queue == []
    decreases |s.queue|
  {
    if s.queue == [] || !s.worker.Idle? {
      assert Outstanding(s) == [];
    } else {
      ServeOneKeepsInv(s, sessions[0]);
      DrainExecutesAll(ServeOne(s, sessions[0]), sessions[1..]);
    }
  }

  // ---------------------------------------------------------------------------------------------
  // The room entry
  // ---------------------------------------------------------------------------------------------

  class Room {
    var registered: bool
    var connected: bool
    var accepting: bool
    var closing: bool
    var queue: seq<Command>
    var worker: Worker
    var reported: seq<Notice>
    ghost var storing: bool
    ghost var accepted: seq<Command>
    ghost var executed: seq<Command>
    ghost var raced: bool

    ghost function View(): State
      reads this
    {
      State(registered, connected, accepting, closing, storing, queue, worker, accepted, executed, reported, raced)
    }

    constructor ()
      ensures View() == Initial && Inv(View()) && ReportsInv(View())
    {
      registered, connected, accepting, closing, queue, worker := true, false, true, false, [], Idle;
      reported, storing, accepted, executed, raced := [], false, [], [], false;
    }

    /** One caller that is not overtaken by the worker: for a valid close, the send and the store together. */
    method EnqueueRoomCommand(command: Command) returns (r: Result<(), Refusal>)
      requires Inv(View()) && !storing
      modifies this
      ensures r == Admission(old(View())) && Inv(View()) && !storing
      ensures var sent := Step(old(View()), Send(command));
              View() == if sent.storing then Step(sent, Store) else sent
    {
      StepKeepsInv(View(), Send(command));
      if !registered {
        return Err(NotConnected);
      }
      if !accepting {
        return Err(IsClosing);
      }
      if !connected {
        return Err(NotConnected);
      }
      if worker.Stopped? {
        return Err(QueueClosed);
      }
      var terminal := Terminal(command);
      queue, accepted, storing := queue + [command], accepted + [command], terminal;
      if terminal {
        StepKeepsInv(View(), Store);
        accepting, storing := false, false;
      }
      return Ok(());
    }

    method SettleCloseResult(result: Outcome) returns (how: Settlement)
      modifies this`closing, this`accepting
      ensures how == Settle(result)
      ensures closing == (old(closing) && !how.SettledRejected?)
      ensures accepting == (old(accepting) || how.SettledRejected?)
    {
      match result
      case Ok(_) => return SettledClosed;
      case Err(InvalidInput) =>
        closing, accepting := false, true;
        return SettledRejected;
      case Err(OtherError) => return SettledFailed;
    }

    /** The first half of a turn of the worker loop: receive a command and note a requested close. */
    method ReceiveNext() returns (command: Command, requested: Option<CloseReason>)
      requires Enabled(View(), Take) && !closing
      modifies this`queue, this`worker, this`closing
      ensures View() == Step(old(View()), Take)
      ensures worker == Executing(command)
      ensures requested == if Terminal(command) then ParseCloseReason(command.reason) else None
    {
      command := queue[0];
      queue := queue[1..];
      requested := if command.Close? then ParseCloseReason(command.reason) else None;
      worker, closing := Executing(command), requested.Some?;
    }

    /** The second half: report what was executed, settle a requested close, and leave unless it was refused. */
    method FinishCurrent(notices: seq<Notice>, requestedClose: bool, result: Outcome)
      requires worker.Executing? && requestedClose == Terminal(worker.command) && closing == requestedClose && !storing
      modifies this
      ensures var settled := Settled(old(View()), notices, Settle(result));
              View() == if settled.worker.Leaving? then Step(settled, Remove) else settled
    {
      executed, reported, worker := executed + [worker.command], reported + notices, Idle;
      if requestedClose {
        var how := SettleCloseResult(result);
        if !how.SettledRejected? {
          registered, worker := false, Stopped;
        }
      }
    }

    method ServeNext(session: Outcome)
      requires Enabled(View(), Take) && !storing && !closing
      modifies this
      ensures View() == ServeOne(old(View()), session)
    {
      var command, requested := ReceiveNext();
      var result := ExecuteCommand(command, session);
      FinishCurrent(Report(command, result), requested.Some?, result);
    }

    /** The worker loop, given what the session answers to each command it is handed. */
    method RunCommandFifo(sessions: seq<Outcome>)
      requires Inv(View()) && connected && !storing && worker.Idle? && |sessions| >= |queue|
      modifies this
      ensures View() == Drain(old(View()), sessions)
      ensures Inv(View()) && executed == accepted == old(accepted) && queue == []
    {
      DrainExecutesAll(View(), sessions);
      assert sessions[0..] == sessions;
      var k := 0;
      while queue != [] && worker.Idle?
        invariant k <= |sessions| && Drainable(View(), sessions[k..])
        invariant Drain(View(), sessions[k..]) == Drain(old(View()), sessions)
        decreases |queue|
      {
        DrainStep(View(), sessions, k);
        ServeNext(sessions[k]);
        k := k + 1;
      }
    }
  }
}
