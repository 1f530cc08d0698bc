/**
 * The inbox between the Wi-Fi Aware receive loop and the transfer core: a bounded queue, at most one suspended
 * receiver and at most one suspended delivery. The receive loop is the only producer and waits for each delivery.
 */
module DatagramInbox {
  import opened Prelude

  const QUEUE_CAPACITY := 256

  type Datagram = seq<Byte>

  type WaiterId = x: int | 0 <= x < 0x1_0000_0000_0000_0000

  datatype Waiter = Waiter(id: WaiterId, maxBytes: int)

  datatype State = State(
    queued: seq<Datagram>,
    waiter: Option<Waiter>,
    pending: Option<Datagram>,
    finished: bool,
    reason: Option<string>,
    nextWaiterID: WaiterId
  )

  const Initial := State([], None, None, false, None, 0)

  datatype InboxError = ExceedsBound | ConcurrentReceive | Cancelled | Terminal(reason: Option<string>)

  /** What a receiver, new or suspended, gets. */
  type Answer = Result<Datagram, InboxError>

  datatype Event =
    | Deliver(datagram: Datagram)
    | Finish(reason: Option<string>)
    | Receive(maxBytes: int, cancelled: bool)
    | CancelWaiter(id: WaiterId)

  /**
   * What a step lets out: the datagram taken out of the inbox, handed over or dropped as oversize; the datagram lost;
   * and the answer to a receiver.
   */
  datatype Output = Output(consumed: seq<Datagram>, lost: seq<Datagram>, answer: Option<Answer>)

  const Silent := Output([], [], None)

  function Bounded(datagram: Datagram, maxBytes: int): Answer {
    if |datagram| <= maxBytes then Ok(datagram) else Err(ExceedsBound)
  }

  function PendingSeq(s: State): seq<Datagram> {
    if s.pending.Some? then [s.pending.value] else []
  }

  function Step(s: State, e: Event): (State, Output) {
    match e
    case Deliver(datagram) =>
      if s.finished then (s, Silent)
      else if s.waiter.Some? then
        (s.(waiter := None), Output([datagram], [], Some(Bounded(datagram, s.waiter.value.maxBytes))))
      else if |s.queued| < QUEUE_CAPACITY then (s.(queued := s.queued + [datagram]), Silent)
      else (s.(pending := Some(datagram)), Silent)
    case Finish(reason) =>
      if s.finished then (s, Silent)
      else (s.(finished := true, reason := reason, waiter := None, pending := None),
            Output([], PendingSeq(s), if s.waiter.Some? then Some(Err(Terminal(reason))) else None))
    case Receive(maxBytes, cancelled) =>
      if s.queued != [] then
        var rest := s.queued[1..];
        var refill := !s.finished && |rest| < QUEUE_CAPACITY && s.pending.Some?;
        (if refill then s.(queued := rest + [s.pending.value], pending := None) else s.(queued := rest),
         Output([s.queued[0]], [], Some(Bounded(s.queued[0], maxBytes))))
      else if s.finished then (s, Output([], [], Some(Err(Terminal(s.reason)))))
      else if s.waiter.Some? then (s, Output([], [], Some(Err(ConcurrentReceive))))
      else
        var counted := s.(nextWaiterID := (s.nextWaiterID + 1) % 0x1_0000_0000_0000_0000);
        if cancelled then (counted, Output([], [], Some(Err(Cancelled))))
        else (counted.(waiter := Some(Waiter(s.nextWaiterID, maxBytes))), Silent)
    case CancelWaiter(id) =>
      if s.waiter.Some? && s.waiter.value.id == id then (s.(waiter := None), Output([], [], Some(Err(Cancelled))))
      else (s, Silent)
  }

  /** The single producer does not deliver while its previous delivery is suspended. */
  predicate Enabled(s: State, e: Event) {
    e.Deliver? ==> s.pending.None?
  }

  predicate Inv(s: State) {
    && |s.queued| <= QUEUE_CAPACITY
    && (s.waiter.Some? ==> s.queued == [] && s.pending.None?)
    && (s.pending.Some? ==> |s.queued| == QUEUE_CAPACITY)
    && (s.finished ==> s.waiter.None? && s.pending.None?)
  }

  /** What the inbox still holds, in order. */
  function Content(s: State): seq<Datagram> {
    s.queued + PendingSeq(s)
  }

  /** The datagram a step takes in: a delivery counts as long as the inbox is open. */
  function TakenIn(s: State, e: Event): seq<Datagram> {
    if e.Deliver? && !s.finished then [e.datagram] else []
  }

  /** Nothing appears, disappears or is reordered in one step. */
  lemma StepConserves(s: State, e: Event)
    requires Inv(s) && Enabled(s, e)
    ensures Inv(Step(s, e).0)
    ensures Content(s) + TakenIn(s, e) == Step(s, e).1.consumed + (Content(Step(s, e).0) + Step(s, e).1.lost)
    ensures Step(s, e).1.lost != [] ==> e.Finish? && !s.finished && |Step(s, e).1.lost| == 1
    ensures s.finished ==> Step(s, e).0.finished
  {
    if e.Receive? && s.queued != [] {
      assert s.queued == [s.queued[0]] + s.queued[1..];
    }
  }

  // ---------------------------------------------------------------------------------------------
  // Runs
  // ---------------------------------------------------------------------------------------------

  datatype Trace = Trace(state: State, consumed: seq<Datagram>, lost: seq<Datagram>, answers: seq<Answer>)

  function Run(s: State, events: seq<Event>): Trace
    decreases |events|
  {
    if events == [] then Trace(s, [], [], [])
    else
      var (next, out) := Step(s, events[0]);
      var rest := Run(next, events[1..]);
      Trace(rest.state, out.consumed + rest.consumed, out.lost + rest.lost,
            (if out.answer.Some? then [out.answer.value] else []) + rest.answers)
  }

  ghost predicate Runs(s: State, events: seq<Event>)
    decreases |events|
  {
    events == [] || (Enabled(s, events[0]) && Runs(Step(s, events[0]).0, events[1..]))
  }

  /** The datagrams delivered before the inbox finished. */
  function Accepted(s: State, events: seq<Event>): seq<Datagram>
    decreases |events|
  {
    if events == [] then [] else TakenIn(s, events[0]) + Accepted(Step(s, events[0]).0, events[1..])
  }

  lemma {:induction false} NothingAfterFinish(s: State, events: seq<Event>)
    requires Inv(s) && Runs(s, events) && s.finished
    ensures Accepted(s, events) == [] && Run(s, events).lost == [] && Run(s, events).state.finished
    decreases |events|
  {
    if events != [] {
      StepConserves(s, events[0]);
      NothingAfterFinish(Step(s, events[0]).0, events[1..]);
    }
  }

  /**
   * Conservation and order over every run: what was consumed, then the queue, then the suspended delivery, then what
   * was lost, is exactly what was accepted, in order. Only finishing loses anything, and at most the suspended
   * delivery.
   */
  lemma {:induction false} InboxConserves(s: State, events: seq<Event>)
    requires Inv(s) && Runs(s, events)
    ensures var t := Run(s, events);
            && Inv(t.state)
            && Content(s) + Accepted(s, events) == t.consumed + Content(t.state) + t.lost
            && |t.lost| <= 1 && (t.lost != [] ==> t.state.finished)
    decreases |events|
  {
    if events != [] {
      var e := events[0];
      var (next, out) := Step(s, e);
      StepConserves(s, e);
      InboxConserves(next, events[1..]);
      var rest := Run(next, events[1..]);
      if out.lost != [] { NothingAfterFinish(next, events[1..]); }
      JoinRuns(out.consumed, Content(next), out.lost, Accepted(next, events[1..]), rest.consumed, Content(rest.state),
               rest.lost);
      assert Content(s) + Accepted(s, events) == Content(s) + TakenIn(s, e) + Accepted(next, events[1..]);
    }
  }

  /** Sequence bookkeeping: a first step's output put before the rest of the run's. */
  lemma JoinRuns(c1: seq<Datagram>, held: seq<Datagram>, l1: seq<Datagram>, taken: seq<Datagram>, c2: seq<Datagram>,
                 left: seq<Datagram>, l2: seq<Datagram>)
    requires held + taken == c2 + left + l2 && (l1 == [] || (taken == [] && l2 == []))
    ensures c1 + (held + l1) + taken == (c1 + c2) + left + (l1 + l2)
  {
    if l1 == [] {
      assert c1 + (held + l1) + taken == c1 + (held + taken);
      assert (c1 + c2) + left + (l1 + l2) == c1 + (c2 + left + l2);
    } else {
      assert held == held + taken && c2 + left + l2 == c2 + left;
      assert c1 + (held + l1) + taken == c1 + held + l1;
      assert (c1 + c2) + left + (l1 + l2) == c1 + (c2 + left) + l1;
    }
  }

  /** The same from an empty inbox: everything delivered before the finish is consumed, still held, or the one lost. */
  lemma NothingIsLostFromTheStart(events: seq<Event>)
    requires Runs(Initial, events)
    ensures var t := Run(Initial, events);
            && Inv(t.state) && Accepted(Initial, events) == t.consumed + Content(t.state) + t.lost
            && |t.lost| <= 1 && (t.lost != [] ==> t.state.finished)
  {
    InboxConserves(Initial, events);
    assert Content(Initial) + Accepted(Initial, events) == Accepted(Initial, events);
  }

  /** How many receive calls the run makes. */
  function Receives(events: seq<Event>): nat {
    if events == [] then 0 else (if events[0].Receive? then 1 else 0) + Receives(events[1..])
  }

  /**
   * Every receive call is answered once: in every run the answers given, plus the one receiver still suspended, are the
   * calls made. After finishing nobody is suspended.
   */
  lemma {:induction false} EveryReceiveAnsweredOnce(s: State, events: seq<Event>)
    requires Inv(s) && Runs(s, events)
    ensures var t := Run(s, events);
            |t.answers| + (if t.state.waiter.Some? then 1 else 0)
                == Receives(events) + (if s.waiter.Some? then 1 else 0)
    ensures Run(s, events).state.finished ==> Run(s, events).state.waiter.None?
    decreases |events|
  {
    if events != [] {
      StepConserves(s, events[0]);
      EveryReceiveAnsweredOnce(Step(s, events[0]).0, events[1..]);
    }
  }

  // ---------------------------------------------------------------------------------------------
  // What receivers get
  // ---------------------------------------------------------------------------------------------

  /** The datagram a step hands to a receiver, with the bound that receiver asked for. */
  function Taken(s: State, e: Event): seq<(Datagram, int)> {
    if e.Deliver? && !s.finished && s.waiter.Some? then [(e.datagram, s.waiter.value.maxBytes)]
    else if e.Receive? && s.queued != [] then [(s.queued[0], e.maxBytes)]
    else []
  }

  function AllTaken(s: State, events: seq<Event>): seq<(Datagram, int)>
    decreases |events|
  {
    if events == [] then [] else Taken(s, events[0]) + AllTaken(Step(s, events[0]).0, events[1..])
  }

  function Datagrams(taken: seq<(Datagram, int)>): seq<Datagram> {
    if taken == [] then [] else [taken[0].0] + Datagrams(taken[1..])
  }

  /** Those that fit the bound asked for. */
  function Fitting(taken: seq<(Datagram, int)>): seq<Datagram> {
    if taken == [] then []
    else (if |taken[0].0| <= taken[0].1 then [taken[0].0] else []) + Fitting(taken[1..])
  }

  /** The datagrams among the answers. */
  function Received(answers: seq<Answer>): seq<Datagram> {
    if answers == [] then [] else (if answers[0].Ok? then [answers[0].value] else []) + Received(answers[1..])
  }

  /** In one step a receiver gets the datagram it takes if that fits its bound, and an error otherwise. */
  lemma StepAnswersWithWhatItTakes(s: State, e: Event)
    ensures var (_, out) := Step(s, e);
            if Taken(s, e) == [] then out.consumed == [] && (out.answer.Some? ==> out.answer.value.Err?)
            else var (d, bound) := Taken(s, e)[0];
                 && out.consumed == [d]
                 && out.answer == Some(if |d| <= bound then Ok(d) else Err(ExceedsBound))
  {
  }

  /**
   * The errors a receiver may get, and when: terminal with the reason given, a second receiver, its own cancellation.
   */
  lemma ErrorsSayWhy(s: State, reason: Option<string>, maxBytes: int, cancelled: bool)
    requires Inv(s)
    ensures !s.finished ==>
              && Step(s, Finish(reason)).1.answer == (if s.waiter.Some? then Some(Err(Terminal(reason))) else None)
              && Step(s, Finish(reason)).0.reason == reason && Step(s, Finish(reason)).0.finished
    ensures s.finished && s.queued == [] ==>
              Step(s, Receive(maxBytes, cancelled)) == (s, Output([], [], Some(Err(Terminal(s.reason)))))
    ensures s.waiter.Some? ==>
              Step(s, Receive(maxBytes, cancelled)) == (s, Output([], [], Some(Err(ConcurrentReceive))))
    ensures !s.finished && s.queued == [] && s.waiter.None? ==>
              && Step(s, Receive(maxBytes, cancelled)).1.answer == (if cancelled then Some(Err(Cancelled)) else None)
              && Step(s, Receive(maxBytes, cancelled)).0.waiter
                 == (if cancelled then None else Some(Waiter(s.nextWaiterID, maxBytes)))
  {
  }

  /**
   * Over every run the datagrams consumed are those taken by receivers, in order, and the receivers got exactly the
   * ones that fit the bound they asked for.
   */
  lemma {:induction false} ReceiversGetWhatFits(s: State, events: seq<Event>)
    ensures Run(s, events).consumed == Datagrams(AllTaken(s, events))
    ensures Received(Run(s, events).answers) == Fitting(AllTaken(s, events))
    decreases |events|
  {
    if events != [] {
      var next, out := Step(s, events[0]).0, Step(s, events[0]).1;
      StepAnswersWithWhatItTakes(s, events[0]);
      ReceiversGetWhatFits(next, events[1..]);
      var taken, later := Taken(s, events[0]), AllTaken(next, events[1..]);
      var answers := Run(next, events[1..]).answers;
      if taken == [] {
        var rest := Run(next, events[1..]).consumed;
        assert taken + later == later && out.consumed + rest == rest;
        if out.answer.Some? {
          assert ([out.answer.value] + answers)[1..] == answers;
        } else {
          assert [] + answers == answers;
        }
      } else {
        assert taken == [taken[0]] && (taken + later)[1..] == later && (taken + later)[0] == taken[0];
        assert ([out.answer.value] + answers)[1..] == answers;
      }
    }
  }

  // ---------------------------------------------------------------------------------------------
  // Late cancellations
  // ---------------------------------------------------------------------------------------------

  const ID_COUNT := 0x1_0000_0000_0000_0000

  /** How many waiter ids have been given out since this one; the counter wraps. */
  function Since(s: State, id: WaiterId): (n: nat)
    ensures n < ID_COUNT
  {
    if s.nextWaiterID > id then s.nextWaiterID - id - 1 else s.nextWaiterID + ID_COUNT - id - 1
  }

  /** The waiter with this id is not the one suspended now. */
  predicate Answered(s: State, id: WaiterId) {
    s.waiter.Some? ==> s.waiter.value.id != id
  }

  /** Cancelling an answered waiter is silent; cancelling the suspended one is not. */
  lemma CancelIsSilentIff(s: State, id: WaiterId)
    ensures Step(s, CancelWaiter(id)) == (s, Silent) <==> Answered(s, id)
  {
  }

  lemma StepKeepsAnswered(s: State, e: Event, id: WaiterId)
    requires Answered(s, id) && (e.Receive? ==> Since(s, id) + 1 < ID_COUNT)
    ensures Answered(Step(s, e).0, id) && Since(s, id) <= Since(Step(s, e).0, id)
    ensures Since(Step(s, e).0, id) <= Since(s, id) + (if e.Receive? then 1 else 0)
  {
  }

  /**
   * A late cancellation never reaches a later receiver: once waiter `id` has been answered, it stays without effect in
   * every run whose receive calls, with those made since, number fewer than 2^64.
   */
  lemma {:induction false} LateCancelIsHarmless(s: State, id: WaiterId, events: seq<Event>)
    requires Answered(s, id) && Since(s, id) + Receives(events) < ID_COUNT
    ensures var t := Run(s, events).state; Step(t, CancelWaiter(id)) == (t, Silent)
    decreases |events|
  {
    if events == [] {
      CancelIsSilentIff(s, id);
    } else {
      StepKeepsAnswered(s, events[0], id);
      LateCancelIsHarmless(Step(s, events[0]).0, id, events[1..]);
    }
  }

  /** The bound is exact: the receive call after 2^64 - 1 ids have been given out suspends under the old id. */
  lemma LateCancelHitsAfterWrap(s: State, id: WaiterId, maxBytes: int)
    requires Since(s, id) + 1 == ID_COUNT && s.queued == [] && !s.finished && s.waiter.None?
    ensures var t := Step(s, Receive(maxBytes, false)).0;
            Answered(s, id) && Step(t, CancelWaiter(id)).1.answer == Some(Err(Cancelled))
  {
  }

  // ---------------------------------------------------------------------------------------------
  // The actor
  // ---------------------------------------------------------------------------------------------

  class Inbox {
    var queued: seq<Datagram>
    var waiter: Option<Waiter>
    var pending: Option<Datagram>
    var finished: bool
    var reason: Option<string>
    var nextWaiterID: WaiterId

    ghost function View(): State
      reads this
    {
      State(queued, waiter, pending, finished, reason, nextWaiterID)
    }

    constructor ()
      ensures View() == Initial && Inv(View())
    {
      queued, waiter, pending, finished, reason, nextWaiterID := [], None, None, false, None, 0;
    }

    method DeliverDatagram(datagram: Datagram) returns (answer: Option<Answer>)
      requires Inv(View()) && pending.None?
      modifies this
      ensures View() == Step(old(View()), Deliver(datagram)).0 && Inv(View())
      ensures answer == Step(old(View()), Deliver(datagram)).1.answer
    {
      if finished {
        return None;
      }
      if waiter.None? {
        if |queued| < QUEUE_CAPACITY {
          queued := queued + [datagram];
        } else {
          pending := Some(datagram);
        }
        return None;
      }
      var bound := waiter.value.maxBytes;
      waiter := None;
      return Some(Bounded(datagram, bound));
    }

    method FinishInbox(why: Option<string>) returns (answer: Option<Answer>)
      requires Inv(View())
      modifies this
      ensures View() == Step(old(View()), Finish(why)).0 && Inv(View())
      ensures answer == Step(old(View()), Finish(why)).1.answer
    {
      if finished {
        return None;
      }
      finished, reason := true, why;
      answer := None;
      if waiter.Some? {
        waiter := None;
        answer := Some(Err(Terminal(why)));
      }
      pending := None;
    }

    method ReceiveDatagram(maxBytes: int, cancelled: bool) returns (answer: Option<Answer>)
      requires Inv(View())
      modifies this
      ensures View() == Step(old(View()), Receive(maxBytes, cancelled)).0 && Inv(View())
      ensures answer == Step(old(View()), Receive(maxBytes, cancelled)).1.answer
    {
      if queued != [] {
        var datagram := queued[0];
        queued := queued[1..];
        ResumePending();
        return Some(Bounded(datagram, maxBytes));
      }
      if finished {
        return Some(Err(Terminal(reason)));
      }
      if waiter.Some? {
        return Some(Err(ConcurrentReceive));
      }
      var id := nextWaiterID;
      nextWaiterID := (nextWaiterID + 1) % 0x1_0000_0000_0000_0000;
      if cancelled {
        return Some(Err(Cancelled));
      }
      waiter := Some(Waiter(id, maxBytes));
      return None;
    }

    method ResumePending()
      modifies this`queued, this`pending
      ensures var resumed := !finished && |old(queued)| < QUEUE_CAPACITY && old(pending).Some?;
              && queued == (if resumed then old(queued) + [old(pending).value] else old(queued))
              && pending == (if resumed then None else old(pending))
    {
      if !finished && |queued| < QUEUE_CAPACITY && pending.Some? {
        queued := queued + [pending.value];
        pending := None;
      }
    }

    method CancelSuspended(id: WaiterId) returns (answer: Option<Answer>)
      requires Inv(View())
      modifies this`waiter
      ensures View() == Step(old(View()), CancelWaiter(id)).0 && Inv(View())
      ensures answer == Step(old(View()), CancelWaiter(id)).1.answer
    {
      if waiter.None? || waiter.value.id != id {
        return None;
      }
      waiter := None;
      return Some(Err(Cancelled));
    }
  }
}
