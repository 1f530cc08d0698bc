/**
 * The one-time-room part of the connection workflow: phases of room control, the outgoing offer waiting for the peer's
 * decision, lifetime revisions, and an idle expiry that the session may refuse. Every section that runs on the main
 * actor without suspending is one step; whatever a task does after suspending is a later step that carries the
 * generation the task captured.
 */
module OfferDecisions {
  import opened Prelude

  datatype CloseReason =
    UserEnded | IdleExpired | InvitationExpired | PeerEnded | Backgrounded | NetworkLost | ProtocolFailure

  datatype Phase = Idle | Hosting | Joining | Connected | Ended(reason: CloseReason) | Failed(message: string)

  datatype Policy = IdleFifteenMinutes | UntilForegroundEnds

  datatype Lifetime = Lifetime(revision: nat, policy: Policy, deadline: Option<int>)

  /** History: one decision callback, the offer and generation it was given for, and what it was told. */
  datatype Call = Call(offer: string, generation: int, told: seq<bool>)

  /** `outgoing` maps an offer to the number of its callback. */
  datatype State = State(
    phase: Phase,
    generation: int,
    creator: bool,
    outgoing: map<string, nat>,
    incoming: Option<string>,
    revision: Option<nat>,
    policy: Policy,
    deadline: Option<int>,
    expiring: Option<nat>,
    deferred: Option<string>,
    calls: seq<Call>
  )

  const Initial := State(Idle, 0, false, map[], None, None, IdleFifteenMinutes, None, None, None, [])

  datatype ControlEvent =
    | PeerConnected(creator: bool, lifetime: Lifetime)
    | IncomingOffer(offer: string)
    | OfferAccepted(offer: string)
    | OfferRejected(offer: string)
    | LifetimeChanged(lifetime: Lifetime)
    | PeerClosed(reason: CloseReason)

  datatype Event =
    | StartHosting(invited: bool, verified: bool)
    | JoinRoom(prepared: bool)
    | OfferTransfer(offer: string)
    | OfferSendFailed(offer: string, message: string, generation: int)
    | Replied(lifetime: Option<Lifetime>, generation: int)
    | ClaimIncoming
    | Control(event: ControlEvent, generation: int)
    | ControlFails(message: string, generation: int)
    | SyncFails(message: string, generation: int)
    | Tick(now: int, quiet: bool, invitationExpired: bool)
    | ExpiryDone(revision: nat, generation: int)
    | ExpiryRefused(revision: nat, snapshot: Option<Lifetime>, generation: int)
    | EndControl(reason: CloseReason)

  // ---------------------------------------------------------------------------------------------
  // Steps
  // ---------------------------------------------------------------------------------------------

  function Tell(calls: seq<Call>, id: nat, answer: bool): seq<Call> {
    if id < |calls| then calls[id := calls[id].(told := calls[id].told + [answer])] else calls
  }

  /** Every callback still waiting is told no. */
  function TellAll(calls: seq<Call>, waiting: set<nat>): (r: seq<Call>)
    ensures |r| == |calls|
    ensures forall i :: 0 <= i < |r| ==>
              r[i] == if i in waiting then calls[i].(told := calls[i].told + [false]) else calls[i]
  {
    seq(|calls|, i requires 0 <= i < |calls| =>
      if i in waiting then calls[i].(told := calls[i].told + [false]) else calls[i])
  }

  lemma TellOneMore(calls: seq<Call>, told: set<nat>, id: nat)
    requires id !in told
    ensures Tell(TellAll(calls, told), id, false) == TellAll(calls, told + {id})
  {
  }

  /** What ending, failing and resetting have in common: a new generation and nothing left of the connection. */
  function Cleared(s: State, phase: Phase): State {
    State(phase, s.generation + 1, s.creator, map[], None, None, s.policy, None, None, None,
          TellAll(s.calls, s.outgoing.Values))
  }

  function FailControl(s: State, message: string): State {
    if s.phase.Idle? then s else Cleared(s, Failed(message))
  }

  function EndLocalState(s: State): State {
    Cleared(s, Idle).(policy := IdleFifteenMinutes)
  }

  function HandleControlFailure(s: State, message: string): State {
    if s.expiring.Some? then s.(deferred := Some(message)) else FailControl(s, message)
  }

  function ApplyLifetime(s: State, l: Lifetime): State {
    if !s.phase.Connected? || (s.revision.Some? && l.revision <= s.revision.value) then s
    else s.(revision := Some(l.revision), policy := l.policy, deadline := l.deadline)
  }

  /** Take the callback of an offer out and tell it the answer. */
  function Decide(s: State, offer: string, answer: bool): State {
    if offer !in s.outgoing then s
    else s.(outgoing := s.outgoing - {offer}, calls := Tell(s.calls, s.outgoing[offer], answer))
  }

  function Handle(s: State, e: ControlEvent): State {
    match e
    case PeerConnected(creator, lifetime) =>
      if !s.phase.Hosting? && !s.phase.Joining? then s
      else ApplyLifetime(s.(phase := Connected, creator := creator), lifetime)
    case IncomingOffer(offer) => if s.phase.Connected? && s.incoming.None? then s.(incoming := Some(offer)) else s
    case OfferAccepted(offer) => Decide(s, offer, true)
    case OfferRejected(offer) => Decide(s, offer, false)
    case LifetimeChanged(lifetime) => ApplyLifetime(s, lifetime)
    case PeerClosed(reason) => Cleared(s, Ended(reason))
  }

  function MakeOffer(s: State, offer: string): State {
    if s.phase.Connected? && s.incoming.None? && s.outgoing == map[] then
      s.(outgoing := map[offer := |s.calls|], calls := s.calls + [Call(offer, s.generation, [])])
    else s.(calls := s.calls + [Call(offer, s.generation, [false])])
  }

  /** The generation a task captured, for the steps that carry one. */
  function Stamp(e: Event): Option<int> {
    match e
    case OfferSendFailed(_, _, g) => Some(g)
    case Replied(_, g) => Some(g)
    case Control(_, g) => Some(g)
    case ControlFails(_, g) => Some(g)
    case SyncFails(_, g) => Some(g)
    case ExpiryDone(_, g) => Some(g)
    case ExpiryRefused(_, _, g) => Some(g)
    case _ => None
  }

  function Step(s: State, e: Event): State {
    if Stamp(e).Some? && Stamp(e).value != s.generation then s
    else
      match e
      case StartHosting(invited, verified) =>
        if !invited then s
        else if !verified then EndLocalState(s)
        else EndLocalState(s).(phase := Hosting, creator := true)
      case JoinRoom(prepared) =>
        if prepared then EndLocalState(s).(phase := Joining, creator := false) else FailControl(EndLocalState(s), "")
      case OfferTransfer(offer) => MakeOffer(s, offer)
      case OfferSendFailed(offer, message, _) => HandleControlFailure(Decide(s, offer, false), message)
      case Replied(lifetime, _) => if lifetime.Some? then ApplyLifetime(s, lifetime.value) else s
      case ClaimIncoming => s.(incoming := None)
      case Control(event, _) => Handle(s, event)
      case ControlFails(message, _) => HandleControlFailure(s, message)
      case SyncFails(message, _) => FailControl(s, message)
      case Tick(now, quiet, invitationExpired) =>
        if s.phase.Hosting? && invitationExpired then Cleared(s, Ended(InvitationExpired))
        else if s.phase.Connected? && s.creator && s.policy.IdleFifteenMinutes? && quiet && s.incoming.None?
                && s.deadline.Some? && now >= s.deadline.value && s.revision.Some? && s.expiring.None?
        then s.(expiring := s.revision)
        else s
      case ExpiryDone(revision, _) => if s.expiring == Some(revision) then Cleared(s, Ended(IdleExpired)) else s
      case ExpiryRefused(revision, snapshot, _) =>
        if s.expiring != Some(revision) then s
        else
          var open := s.(expiring := None);
          var updated := if snapshot.Some? then ApplyLifetime(open, snapshot.value) else open;
          if s.deferred.Some? then FailControl(updated.(deferred := None), s.deferred.value) else updated
      case EndControl(reason) => Cleared(s, Ended(reason))
  }

  // ---------------------------------------------------------------------------------------------
  // What every step keeps
  // ---------------------------------------------------------------------------------------------

  /** A callback is either waiting, once, for the current generation, or has been told exactly one thing. */
  predicate CallInv(s: State, id: nat)
    requires id < |s.calls|
  {
    var c := s.calls[id];
    || |c.told| == 1
    || (c.told == [] && c.offer in s.outgoing && s.outgoing[c.offer] == id && c.generation == s.generation)
  }

  predicate Waiting(s: State, offer: string)
    requires offer in s.outgoing
  {
    s.outgoing[offer] < |s.calls| && s.calls[s.outgoing[offer]].offer == offer && s.calls[s.outgoing[offer]].told == []
  }

  ghost predicate Inv(s: State) {
    && (forall id :: 0 <= id < |s.calls| ==> CallInv(s, id))
    && (forall offer <- s.outgoing :: Waiting(s, offer))
    && (forall a, b :: a in s.outgoing && b in s.outgoing ==> a == b)
    && (!s.phase.Connected? ==> s.outgoing == map[] && s.incoming.None? && s.revision.None? && s.expiring.None?)
    && (s.deferred.Some? ==> s.expiring.Some?)
    && (s.phase.Connected? ==> s.revision.Some?)
  }

  lemma ClearedInv(s: State, phase: Phase)
    requires Inv(s) && !phase.Connected?
    ensures Inv(Cleared(s, phase))
  {
    var next := Cleared(s, phase);
    forall id | 0 <= id < |next.calls|
      ensures CallInv(next, id)
    {
      assert CallInv(s, id);
      if id in s.outgoing.Values {
        var offer :| offer in s.outgoing && s.outgoing[offer] == id;
        assert Waiting(s, offer);
      }
    }
  }

  lemma DecideInv(s: State, offer: string, answer: bool)
    requires Inv(s)
    ensures Inv(Decide(s, offer, answer))
  {
    var next := Decide(s, offer, answer);
    if offer in s.outgoing {
      assert Waiting(s, offer);
      assert next.outgoing == map[];
      forall id | 0 <= id < |next.calls|
        ensures CallInv(next, id)
      {
        assert CallInv(s, id);
      }
    }
  }

  lemma MakeOfferInv(s: State, offer: string)
    requires Inv(s)
    ensures Inv(MakeOffer(s, offer))
  {
    var next := MakeOffer(s, offer);
    forall id | 0 <= id < |next.calls|
      ensures CallInv(next, id)
    {
      if id < |s.calls| { assert CallInv(s, id); }
    }
    forall o <- next.outgoing
      ensures Waiting(next, o)
    {
      if o in s.outgoing { assert Waiting(s, o); }
    }
  }

  /** The steps that touch neither the callbacks nor the waiting offer. */
  lemma FrameInv(s: State, next: State)
    requires Inv(s) && next.calls == s.calls && next.outgoing == s.outgoing && next.generation == s.generation
    requires next.phase.Connected? ==> next.revision.Some?
    requires !next.phase.Connected? ==>
               !s.phase.Connected? && next.incoming.None? && next.revision.None? && next.expiring.None?
    requires next.deferred.Some? ==> next.expiring.Some?
    ensures Inv(next)
  {
    forall id | 0 <= id < |next.calls|
      ensures CallInv(next, id)
    {
      assert CallInv(s, id);
    }
    forall o <- next.outgoing
      ensures Waiting(next, o)
    {
      assert Waiting(s, o);
    }
  }

  lemma HandleInv(s: State, e: ControlEvent)
    requires Inv(s)
    ensures Inv(Handle(s, e))
  {
    match e
    case OfferAccepted(offer) => DecideInv(s, offer, true);
    case OfferRejected(offer) => DecideInv(s, offer, false);
    case PeerClosed(reason) => ClearedInv(s, Ended(reason));
    case _ => FrameInv(s, Handle(s, e));
  }

  lemma FailInv(s: State, message: string)
    requires Inv(s)
    ensures Inv(FailControl(s, message)) && Inv(HandleControlFailure(s, message))
  {
    ClearedInv(s, Failed(message));
    if s.expiring.Some? { FrameInv(s, HandleControlFailure(s, message)); }
  }

  lemma EndLocalInv(s: State, phase: Phase, creator: bool)
    requires Inv(s) && !phase.Connected?
    ensures Inv(EndLocalState(s).(phase := phase, creator := creator))
  {
    ClearedInv(s, phase);
    FrameInv(Cleared(s, phase), EndLocalState(s).(phase := phase, creator := creator));
  }

  lemma RefusedInv(s: State, snapshot: Option<Lifetime>)
    requires Inv(s) && s.expiring.Some?
    ensures Inv(Step(s, ExpiryRefused(s.expiring.value, snapshot, s.generation)))
  {
    var open := s.(expiring := None);
    var updated := if snapshot.Some? then ApplyLifetime(open, snapshot.value) else open;
    FrameInv(s, updated.(deferred := None));
    if s.deferred.Some? { FailInv(updated.(deferred := None), s.deferred.value); }
  }

  lemma StepKeepsInv(s: State, e: Event)
    requires Inv(s)
    ensures Inv(Step(s, e))
  {
    if Stamp(e).None? || Stamp(e).value == s.generation {
      match e
      case StartHosting(_, _) =>
        EndLocalInv(s, Idle, s.creator);
        EndLocalInv(s, Hosting, true);
      case JoinRoom(_) =>
        EndLocalInv(s, Idle, s.creator);
        EndLocalInv(s, Joining, false);
      case OfferTransfer(offer) => MakeOfferInv(s, offer);
      case OfferSendFailed(offer, message, _) =>
        DecideInv(s, offer, false);
        FailInv(Decide(s, offer, false), message);
      case Control(event, _) => HandleInv(s, event);
      case ControlFails(message, _) => FailInv(s, message);
      case SyncFails(message, _) => FailInv(s, message);
      case ExpiryRefused(revision, snapshot, _) => if s.expiring == Some(revision) { RefusedInv(s, snapshot); }
      case ExpiryDone(_, _) => ClearedInv(s, Ended(IdleExpired));
      case EndControl(reason) => ClearedInv(s, Ended(reason));
      case Tick(_, _, _) =>
        ClearedInv(s, Ended(InvitationExpired));
        if s.phase.Connected? { FrameInv(s, Step(s, e)); }
      case _ => FrameInv(s, Step(s, e));
    }
  }

  // ---------------------------------------------------------------------------------------------
  // Runs
  // ---------------------------------------------------------------------------------------------

  function Run(s: State, events: seq<Event>): State
    decreases |events|
  {
    if events == [] then s else Run(Step(s, events[0]), events[1..])
  }

  lemma {:induction false} RunKeepsInv(s: State, events: seq<Event>)
    requires Inv(s)
    ensures Inv(Run(s, events))
    decreases |events|
  {
    if events != [] {
      StepKeepsInv(s, events[0]);
      RunKeepsInv(Step(s, events[0]), events[1..]);
    }
  }

  lemma InitialInv()
    ensures Inv(Initial)
  {
  }

  /**
   * In every run each decision callback has been told at most one thing, and exactly one when control is not connected;
   * at most one offer is outstanding, only while connected, and a callback is untold only if it is that offer's.
   */
  lemma EveryCallbackToldOnce(events: seq<Event>)
    ensures var s := Run(Initial, events);
            && (forall id :: 0 <= id < |s.calls| ==> |s.calls[id].told| <= 1)
            && (!s.phase.Connected? ==>
                  s.outgoing == map[] && forall id :: 0 <= id < |s.calls| ==> |s.calls[id].told| == 1)
            && |s.outgoing| <= 1
            && (forall id :: 0 <= id < |s.calls| && s.calls[id].told == [] ==>
                  s.calls[id].offer in s.outgoing && s.outgoing[s.calls[id].offer] == id)
  {
    InitialInv();
    RunKeepsInv(Initial, events);
    var s := Run(Initial, events);
    forall id | 0 <= id < |s.calls|
      ensures |s.calls[id].told| == 1
           || (s.calls[id].told == [] && s.calls[id].offer in s.outgoing && s.outgoing[s.calls[id].offer] == id)
    {
      assert CallInv(s, id);
    }
    if s.outgoing != map[] {
      var offer :| offer in s.outgoing;
      assert s.outgoing.Keys == {offer};
    }
  }

  /** The same connection: the generation has not moved, and a connected state stays connected. */
  predicate SameConnection(a: State, b: State) {
    a.generation == b.generation && (a.phase.Connected? ==> b.phase.Connected?)
  }

  /** Within a connection lifetime state changes only together with a strictly larger revision. */
  predicate LifetimeAdvances(a: State, b: State) {
    a.revision.Some? && b.revision.Some?
    && a.revision.value <= b.revision.value
    && (a.revision == b.revision ==> a.policy == b.policy && a.deadline == b.deadline)
  }

  /** Either a new generation began, or the connection and its lifetime state went on. */
  predicate Advances(a: State, b: State) {
    b.generation == a.generation + 1
    || (SameConnection(a, b) && (a.phase.Connected? ==> LifetimeAdvances(a, b)))
  }

  lemma ApplyAdvances(s: State, l: Lifetime)
    requires s.phase.Connected? ==> s.revision.Some?
    ensures Advances(s, ApplyLifetime(s, l))
  {
  }

  lemma FailAdvances(s: State, message: string)
    requires s.phase.Connected? ==> s.revision.Some?
    ensures Advances(s, FailControl(s, message)) && Advances(s, HandleControlFailure(s, message))
  {
  }

  lemma HandleAdvances(s: State, e: ControlEvent)
    requires s.phase.Connected? ==> s.revision.Some?
    ensures Advances(s, Handle(s, e))
  {
  }

  lemma RefusedAdvances(s: State, snapshot: Option<Lifetime>)
    requires s.expiring.Some? && (s.phase.Connected? ==> s.revision.Some?)
    ensures Advances(s, Step(s, ExpiryRefused(s.expiring.value, snapshot, s.generation)))
  {
    var open := s.(expiring := None);
    if snapshot.Some? { ApplyAdvances(open, snapshot.value); }
  }

  lemma StepAdvances(s: State, e: Event)
    requires s.phase.Connected? ==> s.revision.Some?
    ensures Advances(s, Step(s, e))
  {
    if Stamp(e).None? || Stamp(e).value == s.generation {
      match e
      case OfferSendFailed(offer, message, _) => FailAdvances(Decide(s, offer, false), message);
      case Replied(lifetime, _) => if lifetime.Some? { ApplyAdvances(s, lifetime.value); }
      case Control(event, _) => HandleAdvances(s, event);
      case ControlFails(message, _) => FailAdvances(s, message);
      case SyncFails(message, _) => FailAdvances(s, message);
      case ExpiryRefused(revision, snapshot, _) => if s.expiring == Some(revision) { RefusedAdvances(s, snapshot); }
      case _ =>
    }
  }

  /**
   * Over every run generations never go back, leaving a connection raises them for good, and as long as the generation
   * is unchanged the lifetime revision only grows.
   */
  lemma {:induction false} RunAdvances(s: State, events: seq<Event>)
    requires Inv(s)
    ensures Run(s, events).generation >= s.generation
    ensures Run(s, events).generation == s.generation ==> SameConnection(s, Run(s, events))
    ensures s.phase.Connected? && Run(s, events).generation == s.generation ==> LifetimeAdvances(s, Run(s, events))
    decreases |events|
  {
    if events != [] {
      StepKeepsInv(s, events[0]);
      StepAdvances(s, events[0]);
      RunAdvances(Step(s, events[0]), events[1..]);
    }
  }

  /** Nothing a task captured before a connection ended has any effect afterwards, however long the run between. */
  lemma TasksOfAnEndedConnectionAreHarmless(s: State, events: seq<Event>, e: Event)
    requires Inv(s) && s.phase.Connected? && Stamp(e) == Some(s.generation)
    requires exists k :: 0 <= k <= |events| && !Run(s, events[..k]).phase.Connected?
    ensures Step(Run(s, events), e) == Run(s, events)
  {
    var k :| 0 <= k <= |events| && !Run(s, events[..k]).phase.Connected?;
    RunAdvances(s, events[..k]);
    RunKeepsInv(s, events[..k]);
    RunAdvances(Run(s, events[..k]), events[k..]);
    RunSplit(s, events, k);
  }

  lemma {:induction false} RunSplit(s: State, events: seq<Event>, k: nat)
    requires k <= |events|
    ensures Run(s, events) == Run(Run(s, events[..k]), events[k..])
    decreases k
  {
    if k > 0 {
      RunSplit(Step(s, events[0]), events[1..], k - 1);
      assert events[..k][1..] == events[1..][..k - 1] && events[1..][k - 1..] == events[k..];
    } else {
      assert events[k..] == events;
    }
  }

  // ---------------------------------------------------------------------------------------------
  // What a yes means
  // ---------------------------------------------------------------------------------------------

  /** The peer accepted this very offer on the connection it was made on. */
  function Acceptance(c: Call): Event {
    Control(OfferAccepted(c.offer), c.generation)
  }

  /**
   * No callback changes its offer or generation, a told one stays told, and yes comes only from the peer's acceptance.
   */
  predicate CallKept(before: State, e: Event, after: State, id: nat)
    requires id < |before.calls| && id < |after.calls|
  {
    var b, a := before.calls[id], after.calls[id];
    && a.offer == b.offer && a.generation == b.generation
    && (b.told != [] ==> a == b)
    && (a.told == [true] && b.told != [true] ==> e == Acceptance(b))
  }

  lemma ClearedCalls(s: State, phase: Phase, e: Event, id: nat)
    requires Inv(s) && id < |s.calls|
    ensures CallKept(s, e, Cleared(s, phase), id)
    ensures s.calls[id].told == [] ==> Cleared(s, phase).calls[id].told == [false]
  {
    assert CallInv(s, id);
    assert forall offer <- s.outgoing :: Waiting(s, offer);
    if s.calls[id].told == [] {
      assert s.outgoing[s.calls[id].offer] in s.outgoing.Values;
      assert s.calls[id].told + [false] == [false];
    }
  }

  lemma DecideCalls(s: State, offer: string, answer: bool, e: Event, id: nat)
    requires Inv(s) && id < |s.calls| && (answer ==> e == Control(OfferAccepted(offer), s.generation))
    ensures CallKept(s, e, Decide(s, offer, answer), id)
  {
    assert CallInv(s, id);
    if offer in s.outgoing && s.outgoing[offer] == id {
      assert Waiting(s, offer);
      assert s.calls[id].told + [answer] == [answer];
    }
  }

  lemma FailCalls(s: State, message: string, e: Event, id: nat)
    requires Inv(s) && id < |s.calls|
    ensures CallKept(s, e, FailControl(s, message), id) && CallKept(s, e, HandleControlFailure(s, message), id)
  {
    ClearedCalls(s, Failed(message), e, id);
  }

  lemma HandleCalls(s: State, event: ControlEvent, id: nat)
    requires Inv(s) && id < |s.calls|
    ensures id < |Handle(s, event).calls| && CallKept(s, Control(event, s.generation), Handle(s, event), id)
  {
    var e := Control(event, s.generation);
    match event
    case OfferAccepted(offer) => DecideCalls(s, offer, true, e, id);
    case OfferRejected(offer) => DecideCalls(s, offer, false, e, id);
    case PeerClosed(reason) => ClearedCalls(s, Ended(reason), e, id);
    case _ =>
  }

  lemma SendFailedCalls(s: State, offer: string, message: string, e: Event, id: nat)
    requires Inv(s) && id < |s.calls|
    ensures var t := HandleControlFailure(Decide(s, offer, false), message); id < |t.calls| && CallKept(s, e, t, id)
  {
    DecideCalls(s, offer, false, e, id);
    DecideInv(s, offer, false);
    FailCalls(Decide(s, offer, false), message, e, id);
  }

  lemma RefusedCalls(s: State, snapshot: Option<Lifetime>, e: Event, id: nat)
    requires Inv(s) && id < |s.calls| && s.expiring.Some?
    ensures var t := Step(s, ExpiryRefused(s.expiring.value, snapshot, s.generation));
            id < |t.calls| && CallKept(s, e, t, id)
  {
    var open := s.(expiring := None);
    var updated := if snapshot.Some? then ApplyLifetime(open, snapshot.value) else open;
    if s.deferred.Some? {
      FrameInv(s, updated.(deferred := None));
      FailCalls(updated.(deferred := None), s.deferred.value, e, id);
    }
  }

  lemma StepKeepsCalls(s: State, e: Event, id: nat)
    requires Inv(s) && id < |s.calls|
    ensures id < |Step(s, e).calls| && CallKept(s, e, Step(s, e), id)
  {
    if Stamp(e).None? || Stamp(e).value == s.generation {
      match e
      case StartHosting(_, _) => ClearedCalls(s, Idle, e, id);
      case JoinRoom(_) => ClearedCalls(s, Idle, e, id);
      case OfferSendFailed(offer, message, _) => SendFailedCalls(s, offer, message, e, id);
      case Control(event, _) => HandleCalls(s, event, id);
      case ControlFails(message, _) => FailCalls(s, message, e, id);
      case SyncFails(message, _) => FailCalls(s, message, e, id);
      case Tick(_, _, _) => ClearedCalls(s, Ended(InvitationExpired), e, id);
      case ExpiryDone(_, _) => ClearedCalls(s, Ended(IdleExpired), e, id);
      case ExpiryRefused(revision, snapshot, _) => if s.expiring == Some(revision) { RefusedCalls(s, snapshot, e, id); }
      case EndControl(reason) => ClearedCalls(s, Ended(reason), e, id);
      case _ =>
    }
  }

  /**
   * Over every run a callback keeps its identity and its answer, and one that was told yes after this state was told so
   * because the run contains the peer's acceptance of that offer on that connection.
   */
  lemma {:induction false} YesMeansAccepted(s: State, events: seq<Event>, id: nat)
    requires Inv(s) && id < |s.calls|
    ensures var t := Run(s, events);
            && id < |t.calls| && t.calls[id].offer == s.calls[id].offer
            && t.calls[id].generation == s.calls[id].generation
            && (s.calls[id].told != [] ==> t.calls[id] == s.calls[id])
            && (t.calls[id].told == [true] && s.calls[id].told == [] ==> Acceptance(s.calls[id]) in events)
    decreases |events|
  {
    if events != [] {
      var next := Step(s, events[0]);
      StepKeepsInv(s, events[0]);
      StepKeepsCalls(s, events[0], id);
      YesMeansAccepted(next, events[1..], id);
      assert CallInv(next, id);
      if next.calls[id].told == [true] && s.calls[id].told == [] { assert events[0] == Acceptance(s.calls[id]); }
      assert next.calls[id].offer == s.calls[id].offer;
    }
  }

  /** The peer rejected this very offer on the connection it was made on. */
  function Rejection(c: Call): Event {
    Control(OfferRejected(c.offer), c.generation)
  }

  /** A callback that is waiting when the peer's decision on its offer arrives is told exactly that decision. */
  lemma DecisionIsTold(s: State, id: nat)
    requires Inv(s) && id < |s.calls| && s.calls[id].told == []
    ensures var accepted := Step(s, Acceptance(s.calls[id])); id < |accepted.calls| && accepted.calls[id].told == [true]
    ensures var rejected := Step(s, Rejection(s.calls[id])); id < |rejected.calls| && rejected.calls[id].told == [false]
  {
    assert CallInv(s, id);
    assert s.calls[id].told + [true] == [true] && s.calls[id].told + [false] == [false];
  }

  /** And it stays told so in every run that follows. */
  lemma DecisionIsToldForGood(s: State, id: nat, events: seq<Event>)
    requires Inv(s) && id < |s.calls| && s.calls[id].told == []
    ensures var t := Run(Step(s, Acceptance(s.calls[id])), events); id < |t.calls| && t.calls[id].told == [true]
    ensures var t := Run(Step(s, Rejection(s.calls[id])), events); id < |t.calls| && t.calls[id].told == [false]
  {
    DecisionIsTold(s, id);
    StepKeepsInv(s, Acceptance(s.calls[id]));
    StepKeepsInv(s, Rejection(s.calls[id]));
    YesMeansAccepted(Step(s, Acceptance(s.calls[id])), events, id);
    YesMeansAccepted(Step(s, Rejection(s.calls[id])), events, id);
  }

  /** The acceptance of the callback's offer, on its connection, comes while the callback is still waiting. */
  ghost predicate AcceptedInTime(s: State, events: seq<Event>, id: nat)
    requires id < |s.calls|
    decreases |events|
  {
    events != [] && s.calls[id].told == []
    && (events[0] == Acceptance(s.calls[id])
        || (id < |Step(s, events[0]).calls| && AcceptedInTime(Step(s, events[0]), events[1..], id)))
  }

  /** Yes if and only if: over every run a waiting callback is told yes exactly when its acceptance comes in time. */
  lemma {:induction false} YesIffAcceptedInTime(s: State, events: seq<Event>, id: nat)
    requires Inv(s) && id < |s.calls| && s.calls[id].told == []
    ensures id < |Run(s, events).calls| && (Run(s, events).calls[id].told == [true] <==> AcceptedInTime(s, events, id))
    decreases |events|
  {
    if events != [] {
      var e := events[0];
      var next := Step(s, e);
      StepKeepsInv(s, e);
      StepKeepsCalls(s, e, id);
      YesMeansAccepted(next, events[1..], id);
      if e == Acceptance(s.calls[id]) {
        DecisionIsTold(s, id);
      } else if next.calls[id].told == [] {
        YesIffAcceptedInTime(next, events[1..], id);
      }
    }
  }

  // ---------------------------------------------------------------------------------------------
  // Lifetimes and expiry
  // ---------------------------------------------------------------------------------------------

  /** A lifetime state is adopted whole exactly when it is newer and the connection is up, however it arrives. */
  lemma NewerLifetimeIsAdopted(s: State, l: Lifetime)
    requires Inv(s) && s.phase.Connected?
    ensures var newer := l.revision > s.revision.value;
            var adopted := s.(revision := Some(l.revision), policy := l.policy, deadline := l.deadline);
            && Step(s, Control(LifetimeChanged(l), s.generation)) == (if newer then adopted else s)
            && Step(s, Replied(Some(l), s.generation)) == (if newer then adopted else s)
  {
  }

  /** A connection begins only from hosting or joining, with the peer's lifetime state as its first. */
  lemma ConnectingAdopts(s: State, creator: bool, l: Lifetime)
    requires Inv(s)
    ensures var after := Step(s, Control(PeerConnected(creator, l), s.generation));
            if s.phase.Hosting? || s.phase.Joining? then
              after == s.(phase := Connected, creator := creator, revision := Some(l.revision), policy := l.policy,
                          deadline := l.deadline)
            else after == s
  {
  }

  /** A tick starts an expiry exactly when the creator's idle deadline has passed and nothing is going on. */
  lemma TickExpiresIff(s: State, now: int, quiet: bool)
    requires Inv(s) && s.phase.Connected?
    ensures var after := Step(s, Tick(now, quiet, false));
            if s.creator && s.policy == IdleFifteenMinutes && quiet && s.incoming == None && s.expiring == None
               && s.deadline.Some? && s.deadline.value <= now
            then after == s.(expiring := s.revision) else after == s
  {
  }

  /** Ending, failing and a refused expiry leave exactly the phase they should. */
  lemma EndingsSayWhy(s: State, reason: CloseReason, message: string)
    requires Inv(s) && s.phase.Connected?
    ensures Step(s, EndControl(reason)).phase == Ended(reason)
    ensures Step(s, Control(PeerClosed(reason), s.generation)).phase == Ended(reason)
    ensures Step(s, SyncFails(message, s.generation)).phase == Failed(message)
    ensures s.expiring == None ==> Step(s, ControlFails(message, s.generation)).phase == Failed(message)
    ensures s.expiring.Some? ==> Step(s, ControlFails(message, s.generation)) == s.(deferred := Some(message))
    ensures s.expiring.Some? ==> Step(s, ExpiryDone(s.expiring.value, s.generation)).phase == Ended(IdleExpired)
  {
  }

  // ---------------------------------------------------------------------------------------------
  // Deferred failures
  // ---------------------------------------------------------------------------------------------

  /** The failure is still waiting for the same expiry of the same connection. */
  predicate StillDeferred(before: State, after: State) {
    after.generation == before.generation && after.deferred.Some? && after.expiring == before.expiring
  }

  lemma StepKeepsDeferred(s: State, e: Event)
    requires Inv(s) && s.deferred.Some?
    ensures Step(s, e).generation == s.generation + 1 || StillDeferred(s, Step(s, e))
  {
    if Stamp(e).None? || Stamp(e).value == s.generation {
      match e
      case OfferSendFailed(offer, message, _) => assert Decide(s, offer, false).expiring == s.expiring;
      case _ =>
    }
  }

  lemma {:induction false} RunKeepsDeferred(s: State, events: seq<Event>)
    requires Inv(s) && s.deferred.Some?
    ensures Run(s, events).generation > s.generation || StillDeferred(s, Run(s, events))
    decreases |events|
  {
    if events != [] {
      var next := Step(s, events[0]);
      StepKeepsDeferred(s, events[0]);
      StepKeepsInv(s, events[0]);
      if StillDeferred(s, next) {
        RunKeepsDeferred(next, events[1..]);
      } else {
        RunAdvances(next, events[1..]);
      }
    }
  }

  /**
   * A failure reported while an expiry is pending is never forgotten: in every run, as long as the connection has not
   * ended some other way, it is still waiting for that expiry, and whichever way the expiry goes control is then over.
   */
  lemma DeferredFailureIsNotLost(s: State, events: seq<Event>, snapshot: Option<Lifetime>)
    requires Inv(s) && s.deferred.Some? && Run(s, events).generation == s.generation
    ensures var t := Run(s, events);
            && t.deferred.Some? && t.expiring.Some? && t.expiring == s.expiring
            && Step(t, ExpiryDone(t.expiring.value, t.generation)).phase == Ended(IdleExpired)
            && Step(t, ExpiryRefused(t.expiring.value, snapshot, t.generation)).phase == Failed(t.deferred.value)
  {
    RunKeepsDeferred(s, events);
    RunKeepsInv(s, events);
  }

  // ---------------------------------------------------------------------------------------------
  // The workflow object
  // ---------------------------------------------------------------------------------------------

  class ConnectionWorkflow {
    var phase: Phase
    var generation: int
    var creator: bool
    var outgoing: map<string, nat>
    var incoming: Option<string>
    var revision: Option<nat>
    var policy: Policy
    var deadline: Option<int>
    var expiring: Option<nat>
    var deferred: Option<string>
    var calls: seq<Call>

    ghost function View(): State
      reads this
    {
      State(phase, generation, creator, outgoing, incoming, revision, policy, deadline, expiring, deferred, calls)
    }

    constructor ()
      ensures View() == Initial && Inv(View())
    {
      phase, generation, creator, outgoing, incoming, revision := Idle, 0, false, map[], None, None;
      policy, deadline, expiring, deferred, calls := IdleFifteenMinutes, None, None, None, [];
    }

    method CallBack(id: nat, answer: bool)
      modifies this`calls
      ensures calls == Tell(old(calls), id, answer)
    {
      if id < |calls| {
        calls := calls[id := calls[id].(told := calls[id].told + [answer])];
      }
    }

    /** Tell every waiting callback no, in whatever order the dictionary gives, and forget them. */
    method RefuseOutgoing()
      modifies this`calls, this`outgoing
      ensures outgoing == map[] && calls == TellAll(old(calls), old(outgoing).Values)
    {
      var rest := outgoing.Values;
      assert TellAll(calls, {}) == calls;
      while rest != {}
        invariant rest <= outgoing.Values && outgoing == old(outgoing)
        invariant calls == TellAll(old(calls), outgoing.Values - rest)
        decreases |rest|
      {
        var id :| id in rest;
        TellOneMore(old(calls), outgoing.Values - rest, id);
        CallBack(id, false);
        assert outgoing.Values - (rest - {id}) == (outgoing.Values - rest) + {id};
        rest := rest - {id};
      }
      assert outgoing.Values - rest == outgoing.Values;
      outgoing := map[];
    }

    method EndConnection(next: Phase)
      requires Inv(View()) && !next.Connected?
      modifies this
      ensures View() == Cleared(old(View()), next) && Inv(View())
    {
      ClearedInv(View(), next);
      RefuseOutgoing();
      generation, expiring, deferred := generation + 1, None, None;
      incoming, deadline, revision := None, None, None;
      phase := next;
      assert View() == Cleared(old(View()), next);
    }

    method FinishControl(reason: CloseReason)
      requires Inv(View())
      modifies this
      ensures View() == Step(old(View()), EndControl(reason)) && Inv(View())
    {
      EndConnection(Ended(reason));
    }

    method Fail(message: string)
      requires Inv(View())
      modifies this
      ensures View() == FailControl(old(View()), message) && Inv(View())
    {
      if phase.Idle? {
        return;
      }
      EndConnection(Failed(message));
    }

    method ControlFailed(message: string, captured: int)
      requires Inv(View())
      modifies this
      ensures View() == Step(old(View()), ControlFails(message, captured)) && Inv(View())
    {
      StepKeepsInv(View(), ControlFails(message, captured));
      if captured != generation {
        return;
      }
      if expiring.Some? {
        deferred := Some(message);
        return;
      }
      Fail(message);
    }

    method Apply(lifetime: Lifetime)
      modifies this`revision, this`policy, this`deadline
      ensures View() == ApplyLifetime(old(View()), lifetime)
    {
      if !phase.Connected? {
        return;
      }
      if revision.Some? && lifetime.revision <= revision.value {
        return;
      }
      revision, policy, deadline := Some(lifetime.revision), lifetime.policy, lifetime.deadline;
    }

    method Offer(offer: string) returns (pending: bool)
      requires Inv(View())
      modifies this`outgoing, this`calls
      ensures View() == Step(old(View()), OfferTransfer(offer)) && Inv(View())
      ensures pending <==> phase.Connected? && incoming.None? && old(outgoing) == map[]
    {
      MakeOfferInv(View(), offer);
      if !phase.Connected? || incoming.Some? || outgoing != map[] {
        calls := calls + [Call(offer, generation, [false])];
        return false;
      }
      outgoing, calls := map[offer := |calls|], calls + [Call(offer, generation, [])];
      return true;
    }

    method DecideOffer(offer: string, answer: bool)
      requires Inv(View())
      modifies this`outgoing, this`calls
      ensures View() == Decide(old(View()), offer, answer) && Inv(View())
    {
      DecideInv(View(), offer, answer);
      if offer in outgoing {
        var id := outgoing[offer];
        outgoing := outgoing - {offer};
        CallBack(id, answer);
      }
    }

    method HandleEvent(event: ControlEvent, captured: int)
      requires Inv(View())
      modifies this
      ensures View() == Step(old(View()), Control(event, captured)) && Inv(View())
    {
      StepKeepsInv(View(), Control(event, captured));
      if captured != generation {
        return;
      }
      match event
      case PeerConnected(byUs, lifetime) =>
        if phase.Hosting? || phase.Joining? {
          creator, phase := byUs, Connected;
          Apply(lifetime);
        }
      case IncomingOffer(offer) =>
        if phase.Connected? && incoming.None? {
          incoming := Some(offer);
        }
      case OfferAccepted(offer) => DecideOffer(offer, true);
      case OfferRejected(offer) => DecideOffer(offer, false);
      case LifetimeChanged(lifetime) => Apply(lifetime);
      case PeerClosed(reason) => EndConnection(Ended(reason));
    }

    method OfferFailed(offer: string, message: string, captured: int)
      requires Inv(View())
      modifies this
      ensures View() == Step(old(View()), OfferSendFailed(offer, message, captured)) && Inv(View())
    {
      if captured != generation {
        return;
      }
      DecideOffer(offer, false);
      ControlFailed(message, captured);
    }

    method IdleExpiryRefused(attempted: nat, snapshot: Option<Lifetime>, captured: int)
      requires Inv(View())
      modifies this
      ensures View() == Step(old(View()), ExpiryRefused(attempted, snapshot, captured)) && Inv(View())
    {
      StepKeepsInv(View(), ExpiryRefused(attempted, snapshot, captured));
      if captured != generation || expiring != Some(attempted) {
        return;
      }
      ghost var before := View();
      expiring := None;
      if snapshot.Some? {
        Apply(snapshot.value);
      }
      if deferred.Some? {
        var message := deferred.value;
        deferred := None;
        FrameInv(before, View());
        Fail(message);
      }
    }
  }
}
