/**
 * Remembered credentials rotate a generation after every authenticated session. Either side may stop before it has
 * stored its new generation, so both keep the previous one and walk offset schedules to meet again.
 *
 * The store itself is not part of this model. It is taken to keep what it is handed: after a session authenticated at
 * generation g, storing sets current to g + 1 and previous to g.
 */
module RememberedGenerations {
  import opened Prelude

  const MAX_GENERATION := 0xFFFF_FFFF_FFFF_FFFF

  type Generation = g: int | 0 <= g <= 0xFFFF_FFFF_FFFF_FFFF

  datatype Credential = Credential(current: Generation, previous: Option<Generation>)

  /** The first credential both sides store when they agree to remember each other. */
  const Fresh := Credential(0, None)

  // ---------------------------------------------------------------------------------------------
  // Schedules
  // ---------------------------------------------------------------------------------------------

  function SenderSchedule(c: Credential): (r: seq<Generation>)
    ensures |r| >= 2
  {
    [c.current, c.current] + (if c.previous.Some? then [c.previous.value] else [])
  }

  function ReceiverSchedule(c: Credential): (r: seq<Generation>)
    ensures |r| >= 1
  {
    [c.current] + (if c.previous.Some? then [c.previous.value, c.current] else [])
  }

  /** What the receiver listens for while the sender makes attempt i: its last attempt has no time limit. */
  function ListensFor(c: Credential, i: nat): Generation {
    var schedule := ReceiverSchedule(c);
    if i < |schedule| then schedule[i] else schedule[|schedule| - 1]
  }

  /** The outcome of one attempt, as the loops see it. */
  datatype Attempt = Attempt(succeeded: bool, authenticated: bool, cancelled: bool)

  predicate Stops(a: Attempt) {
    a.succeeded || a.authenticated || a.cancelled
  }

  datatype Ending = Stopped(generation: Generation, attempt: Attempt) | Exhausted(generation: Generation) | GaveUp

  /** The attempts a schedule leads to when attempt i would end as outcomes(i). */
  function Walk(schedule: seq<Generation>, outcomes: nat -> Attempt, i: nat): Ending
    requires i <= |schedule|
    decreases |schedule| - i
  {
    if i == |schedule| then GaveUp
    else if schedule[i] == MAX_GENERATION then Exhausted(schedule[i])
    else if Stops(outcomes(i)) then Stopped(schedule[i], outcomes(i))
    else Walk(schedule, outcomes, i + 1)
  }

  /** The retry loop of both directions. */
  method RunSchedule(schedule: seq<Generation>, outcomes: nat -> Attempt) returns (ending: Ending, attempted: nat)
    ensures ending == Walk(schedule, outcomes, 0)
    ensures attempted <= |schedule|
    ensures forall i :: 0 <= i < attempted ==> schedule[i] != MAX_GENERATION
    ensures forall i :: 0 <= i < attempted - 1 ==> !Stops(outcomes(i))
    ensures ending.Stopped? ==>
              attempted > 0 && Stops(outcomes(attempted - 1)) && ending.generation == schedule[attempted - 1]
    ensures ending.GaveUp? <==> attempted == |schedule| && (attempted > 0 ==> !Stops(outcomes(attempted - 1)))
    ensures forall i :: 0 <= i < attempted ==>
              (outcomes(i).succeeded || outcomes(i).authenticated || outcomes(i).cancelled ==>
                 i == attempted - 1 && ending == Stopped(schedule[i], outcomes(i)))
    ensures attempted < |schedule| && ending.Stopped? ==>
              var last := outcomes(attempted - 1); last.succeeded || last.authenticated || last.cancelled
    ensures attempted < |schedule| && !ending.Stopped? ==> ending == Exhausted(MAX_GENERATION)
  {
    attempted := 0;
    while attempted < |schedule|
      invariant 0 <= attempted <= |schedule|
      invariant Walk(schedule, outcomes, attempted) == Walk(schedule, outcomes, 0)
      invariant forall i :: 0 <= i < attempted ==> schedule[i] != MAX_GENERATION && !Stops(outcomes(i))
    {
      var generation := schedule[attempted];
      if generation == MAX_GENERATION {
        return Exhausted(generation), attempted;
      }
      var attempt := outcomes(attempted);
      attempted := attempted + 1;
      if Stops(attempt) {
        return Stopped(generation, attempt), attempted;
      }
    }
    return GaveUp, attempted;
  }

  // ---------------------------------------------------------------------------------------------
  // Sessions and crashes
  // ---------------------------------------------------------------------------------------------

  function Stored(g: Generation): Credential
    requires g < MAX_GENERATION
  {
    Credential(g + 1, Some(g))
  }

  /** A side knows generation g. */
  predicate Knows(c: Credential, g: Generation) {
    c.current == g || c.previous == Some(g)
  }

  datatype Pair = Pair(a: Credential, b: Credential)

  /** A session authenticated at a generation both know; each side then stores it or stops before it can. */
  datatype Session = Session(generation: Generation, aStores: bool, bStores: bool)

  predicate CanMeet(p: Pair, s: Session) {
    s.generation < MAX_GENERATION && Knows(p.a, s.generation) && Knows(p.b, s.generation)
  }

  function Meet(p: Pair, s: Session): Pair
    requires CanMeet(p, s)
  {
    Pair(if s.aStores then Stored(s.generation) else p.a, if s.bStores then Stored(s.generation) else p.b)
  }

  /** The previous generation, when there is one, is the one just before. */
  predicate WellFormed(c: Credential) {
    c.previous == if c.current == 0 then None else Some(c.current - 1)
  }

  predicate InStep(p: Pair) {
    WellFormed(p.a) && WellFormed(p.b) && -1 <= p.a.current - p.b.current <= 1
  }

  ghost predicate Runs(p: Pair, sessions: seq<Session>)
    decreases |sessions|
  {
    sessions == [] || (CanMeet(p, sessions[0]) && Runs(Meet(p, sessions[0]), sessions[1..]))
  }

  ghost function After(p: Pair, sessions: seq<Session>): Pair
    requires Runs(p, sessions)
    decreases |sessions|
  {
    if sessions == [] then p else After(Meet(p, sessions[0]), sessions[1..])
  }

  /**
   * In every run, whoever stops before storing and however often, the two currents stay within one of each other and
   * neither ever goes back.
   */
  lemma {:induction false} CrashesKeepInStep(p: Pair, sessions: seq<Session>)
    requires InStep(p) && Runs(p, sessions)
    ensures InStep(After(p, sessions))
    ensures After(p, sessions).a.current >= p.a.current && After(p, sessions).b.current >= p.b.current
    decreases |sessions|
  {
    if sessions != [] {
      CrashesKeepInStep(Meet(p, sessions[0]), sessions[1..]);
    }
  }

  /** The same from the moment both sides first remember each other. */
  lemma RememberedPairsStayInStep(sessions: seq<Session>)
    requires Runs(Pair(Fresh, Fresh), sessions)
    ensures InStep(After(Pair(Fresh, Fresh), sessions))
  {
    CrashesKeepInStep(Pair(Fresh, Fresh), sessions);
  }

  // ---------------------------------------------------------------------------------------------
  // Rendezvous
  // ---------------------------------------------------------------------------------------------

  /** Attempt i of the sender finds the receiver on the same generation. */
  predicate MeetsAt(sender: Credential, receiver: Credential, i: nat) {
    i < |SenderSchedule(sender)| && SenderSchedule(sender)[i] == ListensFor(receiver, i)
  }

  /** The attempt at which the offset schedules coincide: at once, second, or third. */
  function MeetingAttempt(sender: Credential, receiver: Credential): nat {
    if sender.current == receiver.current then 0 else if sender.current < receiver.current then 1 else 2
  }

  /**
   * Rendezvous. For well-formed credentials the schedules share a generation at a common attempt exactly when the two
   * currents are within one of each other; that attempt carries the smaller current.
   */
  lemma RendezvousIffInStep(sender: Credential, receiver: Credential)
    requires WellFormed(sender) && WellFormed(receiver)
    ensures (exists i: nat :: MeetsAt(sender, receiver, i)) <==> InStep(Pair(sender, receiver))
    ensures InStep(Pair(sender, receiver)) ==>
              && MeetsAt(sender, receiver, MeetingAttempt(sender, receiver))
              && ListensFor(receiver, MeetingAttempt(sender, receiver))
                 == (if sender.current < receiver.current then sender.current else receiver.current)
  {
    if InStep(Pair(sender, receiver)) {
      assert MeetsAt(sender, receiver, MeetingAttempt(sender, receiver));
    }
    if i: nat :| MeetsAt(sender, receiver, i) {
      assert SenderSchedule(sender)[i] == sender.current || Some(SenderSchedule(sender)[i]) == sender.previous;
      assert ListensFor(receiver, i) == receiver.current || Some(ListensFor(receiver, i)) == receiver.previous;
    }
  }

  // ---------------------------------------------------------------------------------------------
  // The loops reach the meeting
  // ---------------------------------------------------------------------------------------------

  /** No attempt before m ends the loop. */
  ghost predicate QuietBefore(outcomes: nat -> Attempt, m: nat) {
    forall i: nat :: i < m ==> !Stops(outcomes(i))
  }

  predicate UsableBefore(schedule: seq<Generation>, m: nat)
    requires m <= |schedule|
  {
    forall i :: 0 <= i < m ==> schedule[i] != MAX_GENERATION
  }

  /** A loop none of whose earlier attempts stops it comes to attempt m, unless the counter's end is in the way. */
  lemma {:induction false} WalkReaches(schedule: seq<Generation>, outcomes: nat -> Attempt, i: nat, m: nat)
    requires i <= m <= |schedule| && QuietBefore(outcomes, m)
    ensures (forall k :: i <= k < m ==> schedule[k] != MAX_GENERATION) ==>
              Walk(schedule, outcomes, i) == Walk(schedule, outcomes, m)
    ensures (exists k :: i <= k < m && schedule[k] == MAX_GENERATION) ==>
              Walk(schedule, outcomes, i) == Exhausted(MAX_GENERATION)
    decreases m - i
  {
    if i < m { WalkReaches(schedule, outcomes, i + 1, m); }
  }

  /** The attempt the receiver is in while the sender makes attempt i. */
  function ReceiverAttempt(receiver: Credential, i: nat): (r: nat)
    ensures r < |ReceiverSchedule(receiver)| && ReceiverSchedule(receiver)[r] == ListensFor(receiver, i)
  {
    var last := |ReceiverSchedule(receiver)| - 1;
    if i < last then i else last
  }

  /** A side at the end of the counter gives up before its first attempt, whatever the attempts would have brought. */
  lemma ExhaustedSideEnds(c: Credential, outcomes: nat -> Attempt)
    requires c.current == MAX_GENERATION
    ensures Walk(SenderSchedule(c), outcomes, 0) == Exhausted(MAX_GENERATION)
    ensures Walk(ReceiverSchedule(c), outcomes, 0) == Exhausted(MAX_GENERATION)
  {
  }

  /** Below the end of the counter no attempt of a well-formed side is exhausted. */
  lemma UsableSide(c: Credential)
    requires WellFormed(c) && c.current < MAX_GENERATION
    ensures UsableBefore(SenderSchedule(c), |SenderSchedule(c)|)
    ensures UsableBefore(ReceiverSchedule(c), |ReceiverSchedule(c)|)
  {
  }

  /** Both loops end with the meeting attempt, at the smaller of the two currents. */
  predicate BothStopAtMeeting(
    sender: Credential, receiver: Credential, sent: nat -> Attempt, received: nat -> Attempt)
  {
    var m := MeetingAttempt(sender, receiver);
    var r := ReceiverAttempt(receiver, m);
    var g := if sender.current < receiver.current then sender.current else receiver.current;
    && Walk(SenderSchedule(sender), sent, 0) == Stopped(g, sent(m))
    && Walk(ReceiverSchedule(receiver), received, 0) == Stopped(g, received(r))
  }

  /**
   * For every two sides in step and every outcomes in which nothing before the meeting stops a loop and the meeting
   * does: both loops come to the meeting and end there if and only if neither current is the last generation; and a
   * side is exhausted exactly when its own current is.
   */
  lemma MeetingIsReached(sender: Credential, receiver: Credential, sent: nat -> Attempt, received: nat -> Attempt)
    requires InStep(Pair(sender, receiver))
    requires var m := MeetingAttempt(sender, receiver); var r := ReceiverAttempt(receiver, m);
             QuietBefore(sent, m) && Stops(sent(m)) && QuietBefore(received, r) && Stops(received(r))
    ensures BothStopAtMeeting(sender, receiver, sent, received)
       <==> sender.current < MAX_GENERATION && receiver.current < MAX_GENERATION
    ensures Walk(SenderSchedule(sender), sent, 0) == Exhausted(MAX_GENERATION) <==> sender.current == MAX_GENERATION
    ensures Walk(ReceiverSchedule(receiver), received, 0) == Exhausted(MAX_GENERATION)
         <==> receiver.current == MAX_GENERATION
  {
    var m := MeetingAttempt(sender, receiver);
    var r := ReceiverAttempt(receiver, m);
    RendezvousIffInStep(sender, receiver);
    if sender.current == MAX_GENERATION {
      ExhaustedSideEnds(sender, sent);
    } else {
      UsableSide(sender);
      WalkReaches(SenderSchedule(sender), sent, 0, m);
      assert Walk(SenderSchedule(sender), sent, m) == Stopped(SenderSchedule(sender)[m], sent(m));
    }
    if receiver.current == MAX_GENERATION {
      ExhaustedSideEnds(receiver, received);
    } else {
      UsableSide(receiver);
      WalkReaches(ReceiverSchedule(receiver), received, 0, r);
      assert Walk(ReceiverSchedule(receiver), received, r) == Stopped(ReceiverSchedule(receiver)[r], received(r));
    }
  }

  // ---------------------------------------------------------------------------------------------
  // The two loops side by side
  // ---------------------------------------------------------------------------------------------

  datatype Joint = Met(attempt: nat, generation: Generation) | SideExhausted(attempt: nat) | Missed

  /** Attempt by attempt: a side at the end of its counter gives up, and the two authenticate when they agree. */
  function SideBySide(sender: Credential, receiver: Credential, i: nat): Joint
    requires i <= |SenderSchedule(sender)|
    decreases |SenderSchedule(sender)| - i
  {
    if i == |SenderSchedule(sender)| then Missed
    else
      var g, h := SenderSchedule(sender)[i], ListensFor(receiver, i);
      if g == MAX_GENERATION || h == MAX_GENERATION then SideExhausted(i)
      else if g == h then Met(i, g)
      else SideBySide(sender, receiver, i + 1)
  }

  lemma {:induction false} MetOnlyInStep(sender: Credential, receiver: Credential, i: nat)
    requires WellFormed(sender) && WellFormed(receiver) && i <= |SenderSchedule(sender)|
    ensures SideBySide(sender, receiver, i).Met? ==> InStep(Pair(sender, receiver))
    decreases |SenderSchedule(sender)| - i
  {
    if i < |SenderSchedule(sender)| {
      if SenderSchedule(sender)[i] == ListensFor(receiver, i) {
        assert MeetsAt(sender, receiver, i);
        RendezvousIffInStep(sender, receiver);
      } else {
        MetOnlyInStep(sender, receiver, i + 1);
      }
    }
  }

  /**
   * For all well-formed credentials the two loops, run side by side, meet if and only if the currents are within one of
   * each other and neither is the last generation; they then meet at the smaller current.
   */
  lemma SideBySideMeetsIff(sender: Credential, receiver: Credential)
    requires WellFormed(sender) && WellFormed(receiver)
    ensures SideBySide(sender, receiver, 0).Met?
       <==> InStep(Pair(sender, receiver)) && sender.current < MAX_GENERATION && receiver.current < MAX_GENERATION
    ensures SideBySide(sender, receiver, 0).Met? ==>
              SideBySide(sender, receiver, 0)
              == Met(MeetingAttempt(sender, receiver),
                     if sender.current < receiver.current then sender.current else receiver.current)
  {
    MetOnlyInStep(sender, receiver, 0);
    assert SenderSchedule(sender)[0] == sender.current && ListensFor(receiver, 0) == receiver.current;
    if InStep(Pair(sender, receiver)) && sender.current < MAX_GENERATION && receiver.current < MAX_GENERATION {
      RendezvousIffInStep(sender, receiver);
      var m := MeetingAttempt(sender, receiver);
      if m == 2 {
        assert SenderSchedule(sender)[1] == sender.current && ListensFor(receiver, 1) != sender.current;
        assert SideBySide(sender, receiver, 2) == Met(2, receiver.current);
        assert SideBySide(sender, receiver, 1) == SideBySide(sender, receiver, 2);
      } else if m == 1 {
        assert SideBySide(sender, receiver, 1) == Met(1, sender.current);
      }
    }
  }

  /** At the end of the counter the schedules still agree on paper and the loops do not meet. */
  lemma LastGenerationNeverMeets(sender: Credential, receiver: Credential)
    requires InStep(Pair(sender, receiver)) && (sender.current == MAX_GENERATION || receiver.current == MAX_GENERATION)
    ensures MeetsAt(sender, receiver, MeetingAttempt(sender, receiver))
    ensures SideBySide(sender, receiver, 0) == SideExhausted(0)
  {
    RendezvousIffInStep(sender, receiver);
  }

  /**
   * Recovery. From any point of any run, one session at the meeting attempt in which both sides store brings the two
   * currents together again.
   */
  lemma MeetingHeals(p: Pair, sessions: seq<Session>)
    requires InStep(p) && Runs(p, sessions)
    requires var q := After(p, sessions); q.a.current < MAX_GENERATION && q.b.current < MAX_GENERATION
    ensures var q := After(p, sessions);
            var g := ListensFor(q.b, MeetingAttempt(q.a, q.b));
            && MeetsAt(q.a, q.b, MeetingAttempt(q.a, q.b))
            && CanMeet(q, Session(g, true, true))
            && Meet(q, Session(g, true, true)).a == Meet(q, Session(g, true, true)).b == Credential(g + 1, Some(g))
  {
    CrashesKeepInStep(p, sessions);
    RendezvousIffInStep(After(p, sessions).a, After(p, sessions).b);
  }
}
