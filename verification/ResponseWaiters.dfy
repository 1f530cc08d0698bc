/**
 * Requests over a Wi-Fi Aware control channel: the channel actor keeps one waiter per response key, and each request
 * registers, sends, waits and retries up to three times. Acknowledgements, timers, cancellations, abandoned sends and
 * the close of the channel all race for the waiters.
 */
module ResponseWaiters {
  import opened Prelude

  datatype Kind = Hello | HelloAck | Invite | InviteAck

  type U64 = x: int | 0 <= x < 0x1_0000_0000_0000_0000

  datatype Message = Message(kind: Kind, requestID: U64, senderPeerKey: string, body: seq<Byte>)

  datatype Key = Key(kind: Kind, requestID: U64)

  datatype ChannelError =
    ChannelClosed | DuplicateRequest | ResponseTimedOut | PeerIdentityChanged | Cancelled | SendFailed

  type Outcome = Result<Message, ChannelError>

  datatype Waiter = Waiter(id: nat, expectedPeerKey: Option<string>)

  // ---------------------------------------------------------------------------------------------
  // The channel actor
  // ---------------------------------------------------------------------------------------------

  /** History: what a registered waiter was told, in order. */
  datatype Record = Record(key: Key, expectedPeerKey: Option<string>, told: seq<Outcome>)

  datatype Channel = Channel(closed: bool, pending: map<Key, Waiter>, records: seq<Record>)

  const Opened := Channel(false, map[], [])

  /** A waiter is either pending under its key and told nothing, or gone and told exactly one thing. */
  ghost predicate ChannelInv(c: Channel) {
    && (forall key <- c.pending :: Registered(c, key))
    && (forall id :: 0 <= id < |c.records| ==> Accounted(c, id))
    && (c.closed ==> c.pending == map[])
  }

  predicate Registered(c: Channel, key: Key)
    requires key in c.pending
  {
    var w := c.pending[key];
    w.id < |c.records| && c.records[w.id] == Record(key, w.expectedPeerKey, [])
  }

  predicate Accounted(c: Channel, id: nat)
    requires id < |c.records|
  {
    var r := c.records[id];
    |r.told| == 1 || (r.told == [] && r.key in c.pending && c.pending[r.key].id == id)
  }

  function RegisterResponse(c: Channel, key: Key, expectedPeerKey: Option<string>): Result<Channel, ChannelError> {
    if c.closed then Err(ChannelClosed)
    else if key in c.pending then Err(DuplicateRequest)
    else Ok(Channel(false, c.pending[key := Waiter(|c.records|, expectedPeerKey)],
                    c.records + [Record(key, expectedPeerKey, [])]))
  }

  /** Remove the waiter under the key, if there is one, and tell it the outcome. */
  function Resolve(c: Channel, key: Key, outcome: Outcome): Channel {
    if key !in c.pending || c.pending[key].id >= |c.records| then c
    else
      var id := c.pending[key].id;
      c.(pending := c.pending - {key},
         records := c.records[id := c.records[id].(told := c.records[id].told + [outcome])])
  }

  datatype Route = HandledResponse | Request(message: Message) | Ignored

  function AckOutcome(expectedPeerKey: Option<string>, message: Message): Outcome {
    if expectedPeerKey.Some? && message.senderPeerKey != expectedPeerKey.value then Err(PeerIdentityChanged)
        else Ok(message)
  }

  function RouteMessage(c: Channel, message: Message): (Channel, Route) {
    if message.kind.Hello? || message.kind.Invite? then (c, Request(message))
    else
      var key := Key(message.kind, message.requestID);
      if key !in c.pending then (c, Ignored)
      else (Resolve(c, key, AckOutcome(c.pending[key].expectedPeerKey, message)), HandledResponse)
  }

  /** Every waiter still pending is told that the channel closed; the order does not matter. */
  function CloseChannel(c: Channel): Channel {
    if c.closed then c
    else Channel(true, map[], TellAll(c.records))
  }

  function TellAll(records: seq<Record>): (r: seq<Record>)
    ensures |r| == |records|
    ensures forall i :: 0 <= i < |r| ==>
              r[i] == if records[i].told == [] then records[i].(told := [Err(ChannelClosed)]) else records[i]
  {
    seq(|records|, i requires 0 <= i < |records| =>
      if records[i].told == [] then records[i].(told := [Err(ChannelClosed)]) else records[i])
  }

  lemma RegisterKeepsInv(c: Channel, key: Key, expectedPeerKey: Option<string>)
    requires ChannelInv(c) && RegisterResponse(c, key, expectedPeerKey).Ok?
    ensures ChannelInv(RegisterResponse(c, key, expectedPeerKey).value)
  {
    var next := RegisterResponse(c, key, expectedPeerKey).value;
    forall k <- next.pending
      ensures Registered(next, k)
    {
      if k != key { assert Registered(c, k); }
    }
    forall id | 0 <= id < |next.records|
      ensures Accounted(next, id)
    {
      if id < |c.records| { assert Accounted(c, id); }
    }
  }

  lemma ResolveKeepsInv(c: Channel, key: Key, outcome: Outcome)
    requires ChannelInv(c)
    ensures ChannelInv(Resolve(c, key, outcome))
    ensures key !in Resolve(c, key, outcome).pending
    ensures key in c.pending ==>
              var id := c.pending[key].id;
              id < |c.records| && Resolve(c, key, outcome).records == c.records[id := c.records[id].(told := [outcome])]
  {
    if key in c.pending {
      var next, gone := Resolve(c, key, outcome), c.pending[key].id;
      assert Registered(c, key);
      assert c.records[gone].told + [outcome] == [outcome];
      forall k <- next.pending
        ensures Registered(next, k)
      {
        assert Registered(c, k);
      }
      forall id | 0 <= id < |next.records|
        ensures Accounted(next, id)
      {
        assert Accounted(c, id);
      }
    }
  }

  lemma CloseKeepsInv(c: Channel)
    requires ChannelInv(c)
    ensures ChannelInv(CloseChannel(c))
    ensures forall id :: 0 <= id < |c.records| ==> |CloseChannel(c).records[id].told| == 1
  {
    var next := CloseChannel(c);
    forall id | 0 <= id < |c.records|
      ensures |next.records[id].told| == 1 && Accounted(next, id)
    {
      assert Accounted(c, id);
    }
  }

  /** Midway through closing: the waiters under the keys in rest have not been told yet. */
  function ToldExcept(records: seq<Record>, rest: set<Key>): (r: seq<Record>)
    ensures |r| == |records|
  {
    seq(|records|, i requires 0 <= i < |records| =>
      if records[i].told == [] && records[i].key !in rest then records[i].(told := [Err(ChannelClosed)])
          else records[i])
  }

  lemma NothingToldYet(c: Channel)
    requires ChannelInv(c)
    ensures ToldExcept(c.records, c.pending.Keys) == c.records
  {
    forall id | 0 <= id < |c.records|
      ensures ToldExcept(c.records, c.pending.Keys)[id] == c.records[id]
    {
      assert Accounted(c, id);
    }
  }

  lemma TellOne(c: Channel, rest: set<Key>, key: Key)
    requires ChannelInv(c) && key in rest && rest <= c.pending.Keys
    ensures var id := c.pending[key].id;
            && id < |c.records| && ToldExcept(c.records, rest)[id] == c.records[id] && c.records[id].told == []
            && ToldExcept(c.records, rest - {key})
               == ToldExcept(c.records, rest)[id := c.records[id].(told := c.records[id].told + [Err(ChannelClosed)])]
  {
    assert Registered(c, key);
    var id := c.pending[key].id;
    var before, after := ToldExcept(c.records, rest), ToldExcept(c.records, rest - {key});
    assert c.records[id].told + [Err(ChannelClosed)] == [Err(ChannelClosed)];
    forall i | 0 <= i < |c.records|
      ensures after[i] == before[id := c.records[id].(told := [Err(ChannelClosed)])][i]
    {
      assert Accounted(c, i);
    }
  }

  class ChannelState {
    var closed: bool
    var pending: map<Key, Waiter>
    var records: seq<Record>

    ghost function View(): Channel
      reads this
    {
      Channel(closed, pending, records)
    }

    ghost predicate Valid()
      reads this
    {
      ChannelInv(View())
    }

    constructor ()
      ensures View() == Opened && Valid()
    {
      closed, pending, records := false, map[], [];
    }

    method Register(key: Key, expectedPeerKey: Option<string>) returns (r: Result<Waiter, ChannelError>)
      requires Valid()
      modifies this
      ensures Valid()
      ensures match RegisterResponse(old(View()), key, expectedPeerKey)
              case Ok(next) => View() == next && key in pending && r == Ok(pending[key])
              case Err(e) => View() == old(View()) && r == Err(e)
    {
      if closed {
        return Err(ChannelClosed);
      }
      if key in pending {
        return Err(DuplicateRequest);
      }
      RegisterKeepsInv(View(), key, expectedPeerKey);
      var waiter := Waiter(|records|, expectedPeerKey);
      pending, records := pending[key := waiter], records + [Record(key, expectedPeerKey, [])];
      return Ok(waiter);
    }

    /** The common tail of expiring, cancelling and abandoning; the answer names who was told. */
    method Finish(key: Key, outcome: Outcome) returns (told: Option<nat>)
      requires Valid()
      modifies this
      ensures Valid() && View() == Resolve(old(View()), key, outcome)
      ensures told == if key in old(pending) then Some(old(pending)[key].id) else None
    {
      if key !in pending {
        return None;
      }
      assert Registered(View(), key);
      ResolveKeepsInv(View(), key, outcome);
      var id := pending[key].id;
      pending, records := pending - {key}, records[id := records[id].(told := records[id].told + [outcome])];
      return Some(id);
    }

    method RouteIncoming(message: Message) returns (route: Route, told: Option<nat>)
      requires Valid()
      modifies this
      ensures Valid() && (View(), route) == RouteMessage(old(View()), message)
    {
      match message.kind
      case Hello =>
        return Request(message), None;
      case Invite =>
        return Request(message), None;
      case _ =>
        var key := Key(message.kind, message.requestID);
        if key !in pending {
          return Ignored, None;
        }
        told := Finish(key, AckOutcome(pending[key].expectedPeerKey, message));
        return HandledResponse, told;
    }

    /** Drops all waiters, then tells each of them, in whatever order the dictionary gives. */
    method Close()
      requires Valid()
      modifies this
      ensures Valid() && View() == CloseChannel(old(View()))
    {
      if closed {
        return;
      }
      closed := true;
      var rest := pending;
      pending := map[];
      CloseKeepsInv(old(View()));
      NothingToldYet(old(View()));
      while rest != map[]
        invariant closed && pending == map[]
        invariant rest.Keys <= old(pending).Keys && forall k <- rest :: rest[k] == old(pending)[k]
        invariant records == ToldExcept(old(records), rest.Keys)
        decreases |rest|
      {
        var key :| key in rest;
        TellOne(old(View()), rest.Keys, key);
        var id := rest[key].id;
        records := records[id := records[id].(told := records[id].told + [Err(ChannelClosed)])];
        rest := rest - {key};
      }
      assert records == TellAll(old(records));
    }
  }

  // ---------------------------------------------------------------------------------------------
  // Requests
  // ---------------------------------------------------------------------------------------------

  const MAXIMUM_SEND_ATTEMPTS := 3

  datatype Phase = Ready | Sending | Abandoning | Waiting | Finished(verdict: Outcome)

  /** One run of the retry loop; `last` is the waiter of its latest attempt. */
  datatype Sender =
    Sender(key: Key, expectedPeerKey: Option<string>, attempts: nat, last: Option<nat>, cancelled: bool, phase: Phase)

  /** `timers` are the waiters whose timeout task has not fired: cancelling one may come too late to stop it. */
  datatype System = System(channel: Channel, senders: seq<Sender>, timers: set<nat>)

  datatype Event =
    | Register(i: nat)
    | SendDone(i: nat)
    | SendFails(i: nat)
    | Abandon(i: nat)
    | Consume(i: nat)
    | ConsumeCancelled(i: nat)
    | CancelTask(i: nat)
    | CancelFires(i: nat)
    | TimerFires(id: nat)
    | Incoming(message: Message)
    | CloseAll

  predicate Enabled(s: System, e: Event) {
    match e
    case Register(i) => i < |s.senders| && s.senders[i].phase.Ready?
    case SendDone(i) => i < |s.senders| && s.senders[i].phase.Sending?
    case SendFails(i) => i < |s.senders| && s.senders[i].phase.Sending?
    case Abandon(i) => i < |s.senders| && s.senders[i].phase.Abandoning?
    case Consume(i) =>
      && i < |s.senders| && s.senders[i].phase.Waiting? && s.senders[i].last.Some?
      && s.senders[i].last.value < |s.channel.records| && s.channel.records[s.senders[i].last.value].told != []
    case ConsumeCancelled(i) => i < |s.senders| && s.senders[i].phase.Waiting? && s.senders[i].cancelled
    case CancelTask(i) => i < |s.senders|
    case CancelFires(i) => i < |s.senders| && s.senders[i].cancelled && s.senders[i].last.Some?
    case TimerFires(id) => id in s.timers && id < |s.channel.records|
    case Incoming(_) => true
    case CloseAll => true
  }

  function WithSender(s: System, i: nat, sender: Sender): System
    requires i < |s.senders|
  {
    s.(senders := s.senders[i := sender])
  }

  function RegisterStep(s: System, i: nat): System
    requires i < |s.senders|
  {
    var sender := s.senders[i];
    if sender.cancelled then WithSender(s, i, sender.(phase := Finished(Err(Cancelled))))
    else
      match RegisterResponse(s.channel, sender.key, sender.expectedPeerKey)
      case Err(error) => WithSender(s, i, sender.(phase := Finished(Err(error))))
      case Ok(channel) =>
        var id := |s.channel.records|;
        var waiting := sender.(phase := Sending, attempts := sender.attempts + 1, last := Some(id));
        System(channel, s.senders[i := waiting], s.timers + {id})
  }

  /** What the retry loop does with what its waiter was told. */
  function AfterTold(sender: Sender, outcome: Outcome): Phase {
    match outcome
    case Ok(message) => Finished(if sender.cancelled then Err(Cancelled) else Ok(message))
    case Err(ResponseTimedOut) =>
      if sender.attempts < MAXIMUM_SEND_ATTEMPTS then Ready else Finished(Err(ResponseTimedOut))
    case Err(error) => Finished(Err(error))
  }

  function Step(s: System, e: Event): System
    requires Enabled(s, e)
  {
    match e
    case Register(i) => RegisterStep(s, i)
    case SendDone(i) => WithSender(s, i, s.senders[i].(phase := Waiting))
    case SendFails(i) => WithSender(s, i, s.senders[i].(phase := Abandoning))
    case Abandon(i) =>
      WithSender(s.(channel := Resolve(s.channel, s.senders[i].key, Err(ChannelClosed))), i,
                 s.senders[i].(phase := Finished(Err(SendFailed))))
    case Consume(i) =>
      var sender := s.senders[i];
      WithSender(s, i, sender.(phase := AfterTold(sender, s.channel.records[sender.last.value].told[0])))
    case ConsumeCancelled(i) => WithSender(s, i, s.senders[i].(phase := Finished(Err(Cancelled))))
    case CancelTask(i) => WithSender(s, i, s.senders[i].(cancelled := true))
    case CancelFires(i) => s.(channel := Resolve(s.channel, s.senders[i].key, Err(Cancelled)))
    case TimerFires(id) =>
      s.(channel := Resolve(s.channel, s.channel.records[id].key, Err(ResponseTimedOut)), timers := s.timers - {id})
    case Incoming(message) => s.(channel := RouteMessage(s.channel, message).0)
    case CloseAll => s.(channel := CloseChannel(s.channel))
  }

  /** An acknowledgement that answers this request and comes from the expected peer. */
  predicate Genuine(message: Message, key: Key, expectedPeerKey: Option<string>) {
    && Key(message.kind, message.requestID) == key
    && (expectedPeerKey.Some? ==> message.senderPeerKey == expectedPeerKey.value)
  }

  /** Waiters are only ever told genuine acknowledgements and never that they are duplicates. */
  predicate Honest(r: Record) {
    forall k :: 0 <= k < |r.told| ==>
      r.told[k] != Err(DuplicateRequest) && (r.told[k].Ok? ==> Genuine(r.told[k].value, r.key, r.expectedPeerKey))
  }

  predicate SenderInv(c: Channel, sender: Sender) {
    && (sender.last.Some? ==>
          && sender.last.value < |c.records| && c.records[sender.last.value].key == sender.key
          && c.records[sender.last.value].expectedPeerKey == sender.expectedPeerKey)
    && (sender.key in c.pending ==> sender.last == Some(c.pending[sender.key].id))
    && (sender.phase.Ready? && sender.last.Some? ==> c.records[sender.last.value].told == [Err(ResponseTimedOut)])
    && (sender.phase.Sending? || sender.phase.Abandoning? || sender.phase.Waiting? ==> sender.last.Some?)
    && sender.attempts <= MAXIMUM_SEND_ATTEMPTS && (sender.phase.Ready? ==> sender.attempts < MAXIMUM_SEND_ATTEMPTS)
    && (sender.phase.Finished? ==> Fair(sender, sender.phase.verdict))
  }

  /**
   * A verdict the caller may get: never a collision, success only for a genuine answer, timeout only after all
   * attempts.
   */
  predicate Fair(sender: Sender, verdict: Outcome) {
    && verdict != Err(DuplicateRequest)
    && (verdict.Ok? ==> Genuine(verdict.value, sender.key, sender.expectedPeerKey))
    && (verdict == Err(ResponseTimedOut) ==> sender.attempts == MAXIMUM_SEND_ATTEMPTS)
  }

  /** A live timer belongs to the latest waiter under its key, which has not timed out. */
  predicate TimerInv(s: System, id: nat) {
    && id < |s.channel.records|
    && s.channel.records[id].told != [Err(ResponseTimedOut)]
    && (s.channel.records[id].key in s.channel.pending ==> s.channel.pending[s.channel.records[id].key].id == id)
    && (forall i :: 0 <= i < |s.senders| && s.senders[i].key == s.channel.records[id].key ==>
          s.senders[i].last == Some(id))
  }

  ghost predicate DistinctKeys(senders: seq<Sender>) {
    forall i, j :: 0 <= i < j < |senders| ==> senders[i].key != senders[j].key
  }

  ghost predicate Inv(s: System) {
    && ChannelInv(s.channel)
    && DistinctKeys(s.senders)
    && (forall i :: 0 <= i < |s.senders| ==> SenderInv(s.channel, s.senders[i]))
    && (forall id :: 0 <= id < |s.channel.records| ==> Honest(s.channel.records[id]))
    && (forall id <- s.timers :: TimerInv(s, id))
  }

  /** Requests that have not started, over an open channel. */
  ghost predicate Starting(s: System) {
    && s.channel == Opened && s.timers == {} && DistinctKeys(s.senders)
    && (forall i :: 0 <= i < |s.senders| ==>
          s.senders[i].phase.Ready? && s.senders[i].attempts == 0 && s.senders[i].last.None?)
  }

  lemma StartingInv(s: System)
    requires Starting(s)
    ensures Inv(s)
  {
  }

  /** Changing one sender's phase or cancellation, not its key or waiter, disturbs nothing else. */
  lemma PhaseKeepsInv(s: System, i: nat, sender: Sender)
    requires Inv(s) && i < |s.senders|
    requires sender.key == s.senders[i].key && sender.last == s.senders[i].last
    requires SenderInv(s.channel, sender)
    ensures Inv(WithSender(s, i, sender))
  {
    var next := WithSender(s, i, sender);
    forall id <- next.timers
      ensures TimerInv(next, id)
    {
      assert TimerInv(s, id);
    }
  }

  /** A timer of this key would be the sender's latest waiter, but that one has timed out. */
  lemma ReadyHasNoTimer(s: System, i: nat, id: nat)
    requires Inv(s) && i < |s.senders| && s.senders[i].phase.Ready? && id in s.timers
    ensures id < |s.channel.records| && s.channel.records[id].key != s.senders[i].key
  {
    assert TimerInv(s, id) && SenderInv(s.channel, s.senders[i]);
  }

  /** The retry loop never collides with its own earlier attempt. */
  lemma ReadyIsFree(s: System, i: nat)
    requires Inv(s) && i < |s.senders| && s.senders[i].phase.Ready?
    ensures s.senders[i].key !in s.channel.pending
  {
    var sender := s.senders[i];
    assert SenderInv(s.channel, sender);
    assert sender.key in s.channel.pending ==> Registered(s.channel, sender.key);
  }

  lemma RegisterStepKeepsInv(s: System, i: nat)
    requires Inv(s) && i < |s.senders| && s.senders[i].phase.Ready?
    ensures Inv(RegisterStep(s, i))
  {
    var sender := s.senders[i];
    assert SenderInv(s.channel, sender);
    ReadyIsFree(s, i);
    if sender.cancelled {
      PhaseKeepsInv(s, i, sender.(phase := Finished(Err(Cancelled))));
    } else if s.channel.closed {
      PhaseKeepsInv(s, i, sender.(phase := Finished(Err(ChannelClosed))));
    } else {
      RegisterKeepsInv(s.channel, sender.key, sender.expectedPeerKey);
      var next, id := RegisterStep(s, i), |s.channel.records|;
      forall j | 0 <= j < |next.senders|
        ensures SenderInv(next.channel, next.senders[j])
      {
        if j != i {
          assert SenderInv(s.channel, s.senders[j]);
          assert next.senders[j].key != sender.key;
        }
      }
      forall t <- next.timers
        ensures TimerInv(next, t)
      {
        if t != id {
          assert TimerInv(s, t);
          ReadyHasNoTimer(s, i, t);
        } else {
          forall j | 0 <= j < |next.senders| && next.senders[j].key == sender.key
            ensures next.senders[j].last == Some(id)
          {
            assert j == i;
          }
        }
      }
    }
  }

  /** Telling the waiter under a key something honest, and dropping its timer if that is a timeout. */
  lemma TellKeepsInv(s: System, key: Key, outcome: Outcome, timers: set<nat>)
    requires Inv(s) && outcome != Err(DuplicateRequest) && timers <= s.timers
    requires outcome.Ok? && key in s.channel.pending
         ==> Genuine(outcome.value, key, s.channel.pending[key].expectedPeerKey)
    requires outcome == Err(ResponseTimedOut) && key in s.channel.pending ==> s.channel.pending[key].id !in timers
    ensures Inv(System(Resolve(s.channel, key, outcome), s.senders, timers))
  {
    var next := System(Resolve(s.channel, key, outcome), s.senders, timers);
    ResolveKeepsInv(s.channel, key, outcome);
    if key in s.channel.pending {
      assert Registered(s.channel, key);
      var gone := s.channel.pending[key].id;
      forall j | 0 <= j < |next.senders|
        ensures SenderInv(next.channel, next.senders[j])
      {
        assert SenderInv(s.channel, s.senders[j]);
      }
      forall id | 0 <= id < |next.channel.records|
        ensures Honest(next.channel.records[id])
      {
        assert Honest(s.channel.records[id]);
      }
    }
    forall t <- timers
      ensures TimerInv(next, t)
    {
      assert TimerInv(s, t);
    }
  }

  lemma CloseStepKeepsInv(s: System)
    requires Inv(s)
    ensures Inv(Step(s, CloseAll))
  {
    var next := Step(s, CloseAll);
    CloseKeepsInv(s.channel);
    forall j | 0 <= j < |next.senders|
      ensures SenderInv(next.channel, next.senders[j])
    {
      assert SenderInv(s.channel, s.senders[j]);
    }
    forall id | 0 <= id < |next.channel.records|
      ensures Honest(next.channel.records[id])
    {
      assert Honest(s.channel.records[id]);
    }
    forall t <- next.timers
      ensures TimerInv(next, t)
    {
      assert TimerInv(s, t);
    }
  }

  lemma ConsumeKeepsInv(s: System, i: nat)
    requires Inv(s) && Enabled(s, Consume(i))
    ensures Inv(Step(s, Consume(i)))
  {
    var sender := s.senders[i];
    assert SenderInv(s.channel, sender);
    var id := sender.last.value;
    assert Honest(s.channel.records[id]) && Accounted(s.channel, id);
    var told := s.channel.records[id].told;
    assert told == [told[0]];
    PhaseKeepsInv(s, i, sender.(phase := AfterTold(sender, told[0])));
  }

  lemma StepKeepsInv(s: System, e: Event)
    requires Inv(s) && Enabled(s, e)
    ensures Inv(Step(s, e))
  {
    match e
    case Register(i) => RegisterStepKeepsInv(s, i);
    case SendDone(i) => PhaseKeepsInv(s, i, s.senders[i].(phase := Waiting));
    case SendFails(i) => PhaseKeepsInv(s, i, s.senders[i].(phase := Abandoning));
    case Abandon(i) =>
      TellKeepsInv(s, s.senders[i].key, Err(ChannelClosed), s.timers);
      var told := System(Resolve(s.channel, s.senders[i].key, Err(ChannelClosed)), s.senders, s.timers);
      assert SenderInv(told.channel, told.senders[i]);
      PhaseKeepsInv(told, i, told.senders[i].(phase := Finished(Err(SendFailed))));
    case Consume(i) => ConsumeKeepsInv(s, i);
    case ConsumeCancelled(i) => PhaseKeepsInv(s, i, s.senders[i].(phase := Finished(Err(Cancelled))));
    case CancelTask(i) => PhaseKeepsInv(s, i, s.senders[i].(cancelled := true));
    case CancelFires(i) => TellKeepsInv(s, s.senders[i].key, Err(Cancelled), s.timers);
    case TimerFires(id) =>
      assert TimerInv(s, id);
      TellKeepsInv(s, s.channel.records[id].key, Err(ResponseTimedOut), s.timers - {id});
    case Incoming(message) =>
      var key := Key(message.kind, message.requestID);
      if !(message.kind.Hello? || message.kind.Invite?) && key in s.channel.pending {
        TellKeepsInv(s, key, AckOutcome(s.channel.pending[key].expectedPeerKey, message), s.timers);
      }
    case CloseAll => CloseStepKeepsInv(s);
  }

  // ---------------------------------------------------------------------------------------------
  // Every interleaving
  // ---------------------------------------------------------------------------------------------

  ghost predicate Runs(s: System, events: seq<Event>)
    decreases |events|
  {
    events == [] || (Enabled(s, events[0]) && Runs(Step(s, events[0]), events[1..]))
  }

  ghost function Run(s: System, events: seq<Event>): System
    requires Runs(s, events)
    decreases |events|
  {
    if events == [] then s else Run(Step(s, events[0]), events[1..])
  }

  /** The records only grow, a waiter that was told something is never told anything else, and closing is final. */
  ghost predicate Extends(a: Channel, b: Channel) {
    && |a.records| <= |b.records|
    && (forall id :: 0 <= id < |a.records| && a.records[id].told != [] ==> b.records[id] == a.records[id])
    && (a.closed ==> b.closed && b.records == a.records)
  }

  lemma ResolveExtends(c: Channel, key: Key, outcome: Outcome)
    requires ChannelInv(c)
    ensures Extends(c, Resolve(c, key, outcome))
  {
    if key in c.pending { assert Registered(c, key); }
  }

  lemma StepExtends(s: System, e: Event)
    requires Inv(s) && Enabled(s, e)
    ensures Extends(s.channel, Step(s, e).channel)
  {
    match e
    case Abandon(i) => ResolveExtends(s.channel, s.senders[i].key, Err(ChannelClosed));
    case CancelFires(i) => ResolveExtends(s.channel, s.senders[i].key, Err(Cancelled));
    case TimerFires(id) => ResolveExtends(s.channel, s.channel.records[id].key, Err(ResponseTimedOut));
    case Incoming(message) =>
      var key := Key(message.kind, message.requestID);
      if key in s.channel.pending {
        ResolveExtends(s.channel, key, AckOutcome(s.channel.pending[key].expectedPeerKey, message));
      }
    case _ =>
  }

  lemma {:induction false} RunKeepsInv(s: System, events: seq<Event>)
    requires Inv(s) && Runs(s, events)
    ensures Inv(Run(s, events)) && Extends(s.channel, Run(s, events).channel)
    decreases |events|
  {
    if events != [] {
      StepKeepsInv(s, events[0]);
      StepExtends(s, events[0]);
      RunKeepsInv(Step(s, events[0]), events[1..]);
    }
  }

  /**
   * In every interleaving each registered waiter is told at most one thing, and exactly one once the channel is closed
   * or the waiter is no longer pending; nothing is pending after the close.
   */
  lemma EveryWaiterToldOnce(s: System, events: seq<Event>)
    requires Starting(s) && Runs(s, events)
    ensures var c := Run(s, events).channel;
            && (forall id :: 0 <= id < |c.records| ==>
                  && |c.records[id].told| <= 1
                  && (|c.records[id].told| == 0 <==>
                        c.records[id].key in c.pending && c.pending[c.records[id].key].id == id))
            && (c.closed ==> c.pending == map[] && forall id :: 0 <= id < |c.records| ==> |c.records[id].told| == 1)
  {
    StartingInv(s);
    RunKeepsInv(s, events);
    var c := Run(s, events).channel;
    forall id | 0 <= id < |c.records|
      ensures |c.records[id].told| <= 1
      ensures |c.records[id].told| == 0 <==> c.records[id].key in c.pending && c.pending[c.records[id].key].id == id
    {
      assert Accounted(c, id);
      if c.records[id].key in c.pending { assert Registered(c, c.records[id].key); }
    }
  }

  /**
   * In every interleaving of requests with distinct keys: no request ever ends with a collision, success means a
   * genuine acknowledgement, a timeout means three attempts, and after the close no request is left waiting without an
   * answer.
   */
  lemma RequestsEndFairly(s: System, events: seq<Event>, i: nat)
    requires Starting(s) && Runs(s, events) && i < |Run(s, events).senders|
    ensures var t := Run(s, events); var sender := t.senders[i];
            && sender.attempts <= MAXIMUM_SEND_ATTEMPTS
            && (sender.phase.Finished? ==> Fair(sender, sender.phase.verdict))
            && (t.channel.closed && sender.phase.Waiting? ==> Enabled(t, Consume(i)))
            && (sender.phase.Ready? ==>
                  RegisterResponse(t.channel, sender.key, sender.expectedPeerKey) != Err(DuplicateRequest))
  {
    StartingInv(s);
    RunKeepsInv(s, events);
    var t := Run(s, events);
    assert SenderInv(t.channel, t.senders[i]);
    if t.senders[i].phase.Ready? { ReadyIsFree(t, i); }
    if t.channel.closed && t.senders[i].phase.Waiting? {
      assert Accounted(t.channel, t.senders[i].last.value);
    }
  }

  /** A timer, even one that fires after it was cancelled, reaches its own waiter or nobody. */
  lemma TimerReachesOnlyItsWaiter(s: System, events: seq<Event>, id: nat)
    requires Starting(s) && Runs(s, events) && id in Run(s, events).timers
    ensures var t := Run(s, events);
            && Enabled(t, TimerFires(id))
            && forall other :: 0 <= other < |t.channel.records| && other != id ==>
                 Step(t, TimerFires(id)).channel.records[other] == t.channel.records[other]
  {
    StartingInv(s);
    RunKeepsInv(s, events);
    var t := Run(s, events);
    assert TimerInv(t, id);
    ResolveKeepsInv(t.channel, t.channel.records[id].key, Err(ResponseTimedOut));
  }

  /** After the close nothing registers, whatever else happens. */
  lemma NothingRegistersAfterClose(s: System, events: seq<Event>)
    requires Inv(s) && s.channel.closed && Runs(s, events)
    ensures Run(s, events).channel.closed && Run(s, events).channel.records == s.channel.records
  {
    RunKeepsInv(s, events);
  }

  // ---------------------------------------------------------------------------------------------
  // What each waiter is told
  // ---------------------------------------------------------------------------------------------

  /** The step tells waiter id the outcome, takes it out, and touches no other waiter. */
  ghost predicate TellsOnly(s: System, e: Event, id: nat, outcome: Outcome)
    requires Enabled(s, e) && id < |s.channel.records|
  {
    var after := Step(s, e).channel;
    && after.records == s.channel.records[id := s.channel.records[id].(told := [outcome])]
    && after.pending == s.channel.pending - {s.channel.records[id].key}
  }

  lemma ResolveTells(c: Channel, key: Key, outcome: Outcome)
    requires ChannelInv(c) && key in c.pending
    ensures var id := c.pending[key].id;
            && id < |c.records| && c.records[id].key == key && c.records[id].told == []
            && Resolve(c, key, outcome).records == c.records[id := c.records[id].(told := [outcome])]
            && Resolve(c, key, outcome).pending == c.pending - {key}
  {
    assert Registered(c, key);
    ResolveKeepsInv(c, key, outcome);
  }

  predicate Acknowledges(message: Message) {
    message.kind.HelloAck? || message.kind.InviteAck?
  }

  /**
   * An acknowledgement for a pending key reaches exactly that waiter: it succeeds with the message when it comes from
   * the expected peer, or from anyone when none is expected, and fails with the identity error otherwise. An
   * acknowledgement nobody waits for, and any request, changes nothing.
   */
  lemma AcknowledgementIsDelivered(s: System, message: Message)
    requires Inv(s)
    ensures var key := Key(message.kind, message.requestID);
            if Acknowledges(message) && key in s.channel.pending then
              var id := s.channel.pending[key].id;
              && id < |s.channel.records|
              && TellsOnly(s, Incoming(message), id,
                           if Genuine(message, key, s.channel.records[id].expectedPeerKey) then Ok(message)
                           else Err(PeerIdentityChanged))
            else Step(s, Incoming(message)) == s
  {
    var key := Key(message.kind, message.requestID);
    if Acknowledges(message) && key in s.channel.pending {
      assert Registered(s.channel, key);
      ResolveTells(s.channel, key, if Genuine(message, key, s.channel.pending[key].expectedPeerKey) then Ok(message)
                                   else Err(PeerIdentityChanged));
    }
  }

  /** A timer that fires in time tells its waiter so; one that fires too late changes nothing but itself. */
  lemma TimerTells(s: System, id: nat)
    requires Inv(s) && id in s.timers
    ensures Enabled(s, TimerFires(id))
    ensures s.channel.records[id].told == [] ==> TellsOnly(s, TimerFires(id), id, Err(ResponseTimedOut))
    ensures s.channel.records[id].told != [] ==> Step(s, TimerFires(id)).channel == s.channel
  {
    assert TimerInv(s, id) && Accounted(s.channel, id);
    var key := s.channel.records[id].key;
    assert key in s.channel.pending ==> Registered(s.channel, key);
    if s.channel.records[id].told == [] { ResolveTells(s.channel, key, Err(ResponseTimedOut)); }
  }

  /** Cancelling, abandoning and closing each give their own answer to whoever is pending. */
  lemma OthersTell(s: System, i: nat)
    requires Inv(s) && i < |s.senders| && s.senders[i].key in s.channel.pending
    ensures var id := s.channel.pending[s.senders[i].key].id;
            && id < |s.channel.records|
            && (Enabled(s, CancelFires(i)) ==> TellsOnly(s, CancelFires(i), id, Err(Cancelled)))
            && (Enabled(s, Abandon(i)) ==> TellsOnly(s, Abandon(i), id, Err(ChannelClosed))
                                           && Step(s, Abandon(i)).senders[i].phase == Finished(Err(SendFailed)))
            && (!s.channel.closed ==> Step(s, CloseAll).channel.records[id].told == [Err(ChannelClosed)])
  {
    ResolveTells(s.channel, s.senders[i].key, Err(Cancelled));
    ResolveTells(s.channel, s.senders[i].key, Err(ChannelClosed));
  }

  /**
   * What the request does with what its waiter was told: a success is returned unless the request was cancelled, a
   * timeout is retried until the third attempt, anything else is the request's own failure.
   */
  lemma ConsumedAnswerIsReturned(s: System, i: nat)
    requires Inv(s) && Enabled(s, Consume(i))
    ensures var told := s.channel.records[s.senders[i].last.value].told;
            var after := Step(s, Consume(i)).senders[i];
            && |told| == 1 && Step(s, Consume(i)).channel == s.channel
            && (told[0].Ok? && !s.senders[i].cancelled ==> after.phase == Finished(told[0]))
            && (told[0].Ok? && s.senders[i].cancelled ==> after.phase == Finished(Err(Cancelled)))
            && (told[0] == Err(ResponseTimedOut) ==>
                  after.phase == if s.senders[i].attempts < 3 then Ready else Finished(Err(ResponseTimedOut)))
            && (told[0].Err? && told[0] != Err(ResponseTimedOut) ==> after.phase == Finished(told[0]))
  {
    assert Accounted(s.channel, s.senders[i].last.value);
  }

  /**
   * A genuine acknowledgement of a request that is waiting for it reaches its caller: whatever else happens in between,
   * as long as the request is neither cancelled nor has consumed it, consuming returns exactly that message.
   */
  lemma GenuineAnswerReachesItsCaller(s: System, message: Message, events: seq<Event>, i: nat)
    requires Inv(s) && Acknowledges(message) && Key(message.kind, message.requestID) in s.channel.pending
    requires var w := s.channel.pending[Key(message.kind, message.requestID)];
             Genuine(message, Key(message.kind, message.requestID), w.expectedPeerKey)
    requires Runs(Step(s, Incoming(message)), events)
    requires var t := Run(Step(s, Incoming(message)), events);
             && i < |t.senders| && t.senders[i].phase.Waiting? && !t.senders[i].cancelled
             && t.senders[i].last == Some(s.channel.pending[Key(message.kind, message.requestID)].id)
    ensures var t := Run(Step(s, Incoming(message)), events);
            Enabled(t, Consume(i)) && Step(t, Consume(i)).senders[i].phase == Finished(Ok(message))
  {
    var key := Key(message.kind, message.requestID);
    var id := s.channel.pending[key].id;
    assert Registered(s.channel, key);
    AcknowledgementIsDelivered(s, message);
    StepKeepsInv(s, Incoming(message));
    var next := Step(s, Incoming(message));
    RunKeepsInv(next, events);
    var t := Run(next, events);
    assert t.channel.records[id] == next.channel.records[id];
    ConsumedAnswerIsReturned(t, i);
  }

  /** Distinct keys are needed: two requests that drew the same number collide, and one of them fails for it. */
  lemma EqualKeysCollide(key: Key)
    ensures var idle := Sender(key, None, 0, None, false, Ready);
            var s := System(Opened, [idle, idle], {});
            && Runs(s, [Register(0), Register(1)])
            && Run(s, [Register(0), Register(1)]).senders[1].phase == Finished(Err(DuplicateRequest))
  {
    var idle := Sender(key, None, 0, None, false, Ready);
    var s := System(Opened, [idle, idle], {});
    var t := Step(s, Register(0));
    assert t.senders[1] == idle && key in t.channel.pending;
    assert [Register(0), Register(1)][1..] == [Register(1)] && [Register(1)][1..] == [];
    assert Runs(t, [Register(1)]) && Run(t, [Register(1)]) == Step(t, Register(1));
  }
}
