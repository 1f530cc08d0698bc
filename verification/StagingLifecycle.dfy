/**
 * One share-draft staging session under a racing cancel. The lock protects only the session's fields: copying files,
 * writing the descriptor and the pending file, and cleaning up all happen outside it, so every interleaving of the
 * operating thread, the cancelling thread and other sessions is a run of this machine.
 */
module StagingLifecycle {
  import opened Prelude

  datatype Life = Active | Cancelled | Finalized

  /** A cleanup in progress: remove the directory, read the pending file, remove it if it named this draft. */
  datatype Sweep = RemoveDirectory | ReadPending | RemovePending

  /** Where the operating thread is; `swept` records that this operation has cleaned up once before. */
  datatype Operation =
    | NoOperation
    | Appending
    | WritingDescriptor
    | WritingPending
    | Settling
    | Failing(swept: bool)
    | Sweeping(sweep: Sweep, failsAfter: bool, swept: bool)

  /** `id` is this draft; the pending file, shared with other sessions, may name any draft. */
  datatype Session = Session(
    id: nat,
    expected: nat,
    life: Life,
    inFlight: bool,
    count: nat,
    operation: Operation,
    cancelling: Option<Sweep>,
    directory: bool,
    pending: Option<nat>,
    published: Option<nat>
  )

  const MAX_ITEM_COUNT := 10_000

  predicate Starting(s: Session) {
    && 1 <= s.expected <= MAX_ITEM_COUNT
    && s == Session(s.id, s.expected, Active, false, 0, NoOperation, None, true, s.pending, None)
    && s.pending != Some(s.id)
  }

  datatype Event =
    | BeginAppend
    | FinishAppend
    | BeginFinalize
    | WriteDescriptor
    | WritePending
    | Settle
    | Throw
    | FailOperation
    | SweepStep
    | Cancel
    | CancelSweepStep
    | Elsewhere(pending: Option<nat>)

  predicate Enabled(s: Session, e: Event) {
    match e
    case BeginAppend => true
    case FinishAppend => s.operation.Appending?
    case BeginFinalize => true
    case WriteDescriptor => s.operation.WritingDescriptor?
    case WritePending => s.operation.WritingPending?
    case Settle => s.operation.Settling?
    case Throw => s.operation.Appending? || s.operation.WritingDescriptor? || s.operation.WritingPending?
    case FailOperation => s.operation.Failing?
    case SweepStep => s.operation.Sweeping?
    case Cancel => true
    case CancelSweepStep => s.cancelling.Some?
    case Elsewhere(pending) => pending != Some(s.id)
  }

  function SweepFiles(s: Session, sweep: Sweep): Session {
    match sweep
    case RemoveDirectory => s.(directory := false)
    case ReadPending => s
    case RemovePending => s.(pending := None)
  }

  /** The next phase of a cleanup; the read decides whether there is a third. */
  function NextSweep(s: Session, sweep: Sweep): Option<Sweep> {
    match sweep
    case RemoveDirectory => Some(ReadPending)
    case ReadPending => if s.pending == Some(s.id) then Some(RemovePending) else None
    case RemovePending => None
  }

  function Step(s: Session, e: Event): Session
    requires Enabled(s, e)
  {
    match e
    case BeginAppend =>
      if s.life.Active? && !s.inFlight && s.count < s.expected then s.(inFlight := true, operation := Appending) else s
    case FinishAppend =>
      if s.life.Cancelled? then s.(inFlight := false, operation := Sweeping(RemoveDirectory, true, false))
      else s.(inFlight := false, count := s.count + 1, operation := NoOperation)
    case BeginFinalize =>
      if s.life.Active? && !s.inFlight && s.count == s.expected
      then s.(inFlight := true, operation := WritingDescriptor) else s
    case WriteDescriptor => s.(operation := WritingPending)
    case WritePending => s.(operation := Settling, pending := Some(s.id))
    case Settle =>
      if s.life.Cancelled? then s.(inFlight := false, operation := Sweeping(RemoveDirectory, true, false))
      else s.(life := Finalized, inFlight := false, operation := NoOperation, published := Some(s.count))
    case Throw => s.(operation := Failing(false))
    case FailOperation =>
      s.(life := if s.life.Active? then Cancelled else s.life, inFlight := false,
         operation := Sweeping(RemoveDirectory, false, s.operation.swept))
    case SweepStep =>
      var next := NextSweep(s, s.operation.sweep);
      SweepFiles(s, s.operation.sweep).(operation :=
        if next.Some? then Sweeping(next.value, s.operation.failsAfter, s.operation.swept)
        else if s.operation.failsAfter then Failing(true)
        else NoOperation)
    case Cancel =>
      if !s.life.Active? then s
      else s.(life := Cancelled, cancelling := if s.inFlight then s.cancelling else Some(RemoveDirectory))
    case CancelSweepStep =>
      SweepFiles(s, s.cancelling.value).(cancelling := NextSweep(s, s.cancelling.value))
    case Elsewhere(pending) => s.(pending := pending)
  }

  /** Whether a cleanup past its first phases has already dealt with the directory and the pending file. */
  predicate SweepDone(s: Session, sweep: Option<Sweep>) {
    match sweep
    case Some(RemoveDirectory) => true
    case Some(_) => !s.directory
    case None => !s.directory && s.pending != Some(s.id)
  }

  /** Some thread has yet to remove the directory: its first cleanup has been decided and has not begun. */
  predicate Owes(s: Session) {
    || s.cancelling == Some(RemoveDirectory)
    || (s.operation.Sweeping? && s.operation.sweep.RemoveDirectory? && !s.operation.swept)
  }

  predicate Writing(o: Operation) {
    o.Appending? || o.WritingDescriptor? || o.WritingPending? || o.Settling?
  }

  predicate Inv(s: Session) {
    && s.count <= s.expected
    && (Writing(s.operation) ==> s.inFlight && !s.life.Finalized?)
    && (s.inFlight ==> (Writing(s.operation) || s.operation.Failing?) && s.cancelling.None? && s.directory)
    && (s.operation.Appending? ==> s.count < s.expected)
    && (s.operation.WritingDescriptor? || s.operation.WritingPending? || s.operation.Settling? ==>
          s.count == s.expected)
    && (s.operation.Failing? && !s.inFlight ==> s.life.Cancelled? && SweepDone(s, None))
    && (s.operation.Sweeping? ==> s.life.Cancelled? && !s.inFlight && SweepDone(s, Some(s.operation.sweep)))
    && (s.cancelling.Some? ==> s.life.Cancelled? && s.operation.NoOperation? && SweepDone(s, s.cancelling))
    && (s.life.Active? ==> s.directory && s.cancelling.None? && (s.pending == Some(s.id) ==> s.operation.Settling?))
    && (s.life.Finalized? ==> s.directory && s.operation.NoOperation? && s.cancelling.None? && !s.inFlight)
    && (s.life.Cancelled? && s.operation.NoOperation? && s.cancelling.None? ==> SweepDone(s, None))
    && (s.operation.Failing? ==> s.operation.swept == !s.inFlight)
    && (s.operation.Sweeping? && s.operation.swept ==> !s.directory && !s.operation.failsAfter)
    && (Owes(s) ==> s.directory)
    && (s.published == if s.life.Finalized? then Some(s.expected) else None)
  }

  lemma StartingInv(s: Session)
    requires Starting(s)
    ensures Inv(s)
  {
  }

  lemma StepKeepsInv(s: Session, e: Event)
    requires Inv(s) && Enabled(s, e)
    ensures Inv(Step(s, e))
    ensures !s.life.Active? ==> Step(s, e).life == s.life
    ensures Step(s, e).id == s.id && Step(s, e).expected == s.expected
  {
  }

  // ---------------------------------------------------------------------------------------------
  // Every interleaving
  // ---------------------------------------------------------------------------------------------

  ghost predicate Runs(s: Session, events: seq<Event>)
    decreases |events|
  {
    events == [] || (Enabled(s, events[0]) && Runs(Step(s, events[0]), events[1..]))
  }

  ghost function Run(s: Session, events: seq<Event>): Session
    requires Runs(s, events)
    decreases |events|
  {
    if events == [] then s else Run(Step(s, events[0]), events[1..])
  }

  /** Some thread of this session still has file work to do. */
  predicate Busy(s: Session) {
    !s.operation.NoOperation? || s.cancelling.Some?
  }

  lemma {:induction false} RunKeepsInv(s: Session, events: seq<Event>)
    requires Inv(s) && Runs(s, events)
    ensures Inv(Run(s, events))
    ensures !s.life.Active? ==> Run(s, events).life == s.life
    ensures Run(s, events).id == s.id && Run(s, events).expected == s.expected
    decreases |events|
  {
    if events != [] {
      StepKeepsInv(s, events[0]);
      RunKeepsInv(Step(s, events[0]), events[1..]);
    }
  }

  /**
   * In every interleaving: a success was returned exactly when the session is finalised, with exactly the expected
   * number of items and its directory in place; a cancelled session with no operation in flight still has its directory
   * exactly while some thread owes its removal, and one that no thread is working on is not named by the pending file
   * either; and no cleanup removes the directory under an operation in flight.
   */
  lemma LifecycleSafety(s: Session, events: seq<Event>)
    requires Starting(s) && Runs(s, events)
    ensures var t := Run(s, events);
            && (t.published.Some? <==> t.life.Finalized?)
            && (t.life.Finalized? ==>
                  t.published == Some(s.expected) && t.count == s.expected && t.directory && !Busy(t))
            && (t.life.Cancelled? && !t.inFlight ==> (t.directory <==> Owes(t)))
            && (t.life.Cancelled? && !Busy(t) ==> !t.directory && t.pending != Some(t.id))
            && (t.inFlight ==> t.directory)
  {
    StartingInv(s);
    RunKeepsInv(s, events);
    FinalizedIsFull(s, events);
  }

  lemma {:induction false} FinalizedIsFull(s: Session, events: seq<Event>)
    requires Inv(s) && Runs(s, events) && (s.life.Finalized? ==> s.count == s.expected)
    ensures Run(s, events).life.Finalized? ==> Run(s, events).count == Run(s, events).expected
    decreases |events|
  {
    if events != [] {
      StepKeepsInv(s, events[0]);
      FinalizedIsFull(Step(s, events[0]), events[1..]);
    }
  }

  /**
   * Finalised and cancelled exclude each other for good, and a finalised draft is never touched again by its session.
   */
  lemma {:induction false} EndsAreForever(s: Session, events: seq<Event>)
    requires Inv(s) && Runs(s, events) && !s.life.Active?
    ensures Run(s, events).life == s.life
    ensures s.life.Finalized? ==> Run(s, events).directory && Run(s, events).count == s.count
    ensures s.life.Finalized? && (forall e <- events :: !e.Elsewhere?) ==> Run(s, events) == s
    decreases |events|
  {
    if events != [] {
      StepKeepsInv(s, events[0]);
      EndsAreForever(Step(s, events[0]), events[1..]);
    }
  }

  /** The calls of an undisturbed session: every item, then the finish. */
  function FullRun(items: nat): seq<Event> {
    if items == 0 then [BeginFinalize, WriteDescriptor, WritePending, Settle]
    else [BeginAppend, FinishAppend] + FullRun(items - 1)
  }

  /** A session with the given number of items still to come and nothing going on. */
  predicate Open(s: Session, items: nat) {
    && s.life.Active? && !s.inFlight && s.operation.NoOperation? && s.cancelling.None? && s.count + items == s.expected
  }

  lemma FinishRun(s: Session)
    requires Inv(s) && Open(s, 0)
    ensures Runs(s, FullRun(0))
    ensures Run(s, FullRun(0)) == s.(life := Finalized, pending := Some(s.id), published := Some(s.expected))
  {
    var s1 := Step(s, BeginFinalize);
    var s2 := Step(s1, WriteDescriptor);
    var s3 := Step(s2, WritePending);
    var t := Step(s3, Settle);
    var e1, e2, e3, e4 := BeginFinalize, WriteDescriptor, WritePending, Settle;
    assert [e1, e2, e3, e4][1..] == [e2, e3, e4] && [e2, e3, e4][1..] == [e3, e4] && [e3, e4][1..] == [e4]
        && [e4][1..] == [];
    assert Runs(s3, [e4]) && Run(s3, [e4]) == t;
    assert Runs(s2, [e3, e4]) && Run(s2, [e3, e4]) == t;
    assert Runs(s1, [e2, e3, e4]) && Run(s1, [e2, e3, e4]) == t;
  }

  /**
   * An undisturbed session succeeds: all its items are counted, its draft is finalised, and the pending file names it.
   */
  lemma {:induction false} UndisturbedSessionSucceeds(s: Session, items: nat)
    requires Inv(s) && Open(s, items)
    ensures Runs(s, FullRun(items))
    ensures Run(s, FullRun(items))
         == s.(life := Finalized, count := s.expected, pending := Some(s.id), published := Some(s.expected))
    decreases items
  {
    if items == 0 {
      FinishRun(s);
    } else {
      var s1 := Step(s, BeginAppend);
      var s2 := Step(s1, FinishAppend);
      StepKeepsInv(s, BeginAppend);
      StepKeepsInv(s1, FinishAppend);
      UndisturbedSessionSucceeds(s2, items - 1);
      var rest := FullRun(items - 1);
      assert FullRun(items)[1..] == [FinishAppend] + rest && ([FinishAppend] + rest)[1..] == rest;
      assert Runs(s1, [FinishAppend] + rest) && Run(s1, [FinishAppend] + rest) == Run(s2, rest);
    }
  }

  /** The flag alone does not tell: a cancelled session with no operation in flight may still have its directory. */
  lemma CleanupOutlivesTheFlag(s: Session)
    requires Starting(s)
    ensures Runs(s, [Cancel])
    ensures var t := Run(s, [Cancel]); t.life.Cancelled? && !t.inFlight && t.directory && Owes(t)
  {
    assert [Cancel][1..] == [];
    assert Runs(Step(s, Cancel), []);
  }

  // ---------------------------------------------------------------------------------------------
  // Cleanup ends
  // ---------------------------------------------------------------------------------------------

  function SweepLeft(sweep: Sweep): nat {
    match sweep
    case RemoveDirectory => 3
    case ReadPending => 2
    case RemovePending => 1
  }

  /** An upper bound on the steps a cancelled session still takes. */
  function Remaining(s: Session): nat {
    (match s.operation
     case NoOperation => 0
     case Sweeping(sweep, failsAfter, _) => SweepLeft(sweep) + (if failsAfter then 4 else 0)
     case Failing(_) => 4
     case Settling => 8
     case WritingPending => 9
     case WritingDescriptor => 10
     case Appending => 8)
    + (if s.cancelling.Some? then SweepLeft(s.cancelling.value) else 0)
  }

  /** Steps the session's own threads take once they are running, as opposed to new calls and other sessions. */
  predicate ThreadStep(e: Event) {
    !(e.BeginAppend? || e.BeginFinalize? || e.Cancel? || e.Elsewhere?)
  }

  /**
   * After the cancel each thread step brings the cleanup nearer, new calls change nothing, and a thread can always
   * move.
   */
  lemma CancelledWindsDown(s: Session, e: Event)
    requires Inv(s) && s.life.Cancelled? && Enabled(s, e)
    ensures ThreadStep(e) ==> Remaining(Step(s, e)) < Remaining(s)
    ensures !ThreadStep(e) ==> Remaining(Step(s, e)) == Remaining(s)
    ensures Remaining(s) == 0 <==> !Busy(s)
  {
  }

  ghost function ThreadSteps(events: seq<Event>): nat {
    if events == [] then 0 else (if ThreadStep(events[0]) then 1 else 0) + ThreadSteps(events[1..])
  }

  /**
   * A cancelled session is clean after at most ten steps of its own threads, whatever calls and sessions interleave.
   */
  lemma {:induction false} CleanInTenSteps(s: Session, events: seq<Event>)
    requires Inv(s) && s.life.Cancelled? && Runs(s, events)
    ensures ThreadSteps(events) + Remaining(Run(s, events)) <= Remaining(s) <= 10
    ensures ThreadSteps(events) == Remaining(s) ==>
              !Busy(Run(s, events)) && !Run(s, events).directory && Run(s, events).pending != Some(s.id)
    decreases |events|
  {
    RunKeepsInv(s, events);
    RemainingBound(s, events);
    var t := Run(s, events);
    if ThreadSteps(events) == Remaining(s) {
      assert Remaining(t) == 0 && !Busy(t);
      assert SweepDone(t, None);
    }
  }

  lemma {:induction false} RemainingBound(s: Session, events: seq<Event>)
    requires Inv(s) && s.life.Cancelled? && Runs(s, events)
    ensures ThreadSteps(events) + Remaining(Run(s, events)) <= Remaining(s) <= 10
    decreases |events|
  {
    if events != [] {
      StepKeepsInv(s, events[0]);
      CancelledWindsDown(s, events[0]);
      RemainingBound(Step(s, events[0]), events[1..]);
    }
  }

  // ---------------------------------------------------------------------------------------------
  // The shared pending file
  // ---------------------------------------------------------------------------------------------

  /** A cleanup has read the pending file, found it naming this draft, and will remove whatever is there. */
  predicate AboutToRemove(s: Session) {
    (s.operation.Sweeping? && s.operation.sweep.RemovePending?) || s.cancelling == Some(RemovePending)
  }

  /** The pending file names a draft of another session. */
  predicate Foreign(s: Session) {
    s.pending.Some? && s.pending != Some(s.id)
  }

  /** No other session publishes a draft between that read and the removal. */
  ghost predicate Undisturbed(s: Session, events: seq<Event>)
    requires Runs(s, events)
    decreases |events|
  {
    events == []
    || ((events[0].Elsewhere? && AboutToRemove(s) ==> events[0].pending.None?)
        && Undisturbed(Step(s, events[0]), events[1..]))
  }

  lemma {:induction false} UndisturbedRemovesOnlyItsOwn(s: Session, events: seq<Event>)
    requires Inv(s) && Runs(s, events) && Undisturbed(s, events) && !(AboutToRemove(s) && Foreign(s))
    ensures !(AboutToRemove(Run(s, events)) && Foreign(Run(s, events)))
    decreases |events|
  {
    if events != [] {
      StepKeepsInv(s, events[0]);
      UndisturbedRemovesOnlyItsOwn(Step(s, events[0]), events[1..]);
    }
  }

  /**
   * Another session's pending file survives a step of this session's cleanup if and only if no removal was pending,
   * which in a run that no other session disturbs is always so.
   */
  lemma ForeignPendingKeptIff(s: Session, events: seq<Event>, e: Event)
    requires Starting(s) && Runs(s, events) && Foreign(Run(s, events))
    requires Enabled(Run(s, events), e) && (e.SweepStep? || e.CancelSweepStep?)
    ensures var t := Run(s, events);
            && (Step(t, e).pending == t.pending <==> !AboutToRemove(t))
            && (Undisturbed(s, events) ==> !AboutToRemove(t))
  {
    StartingInv(s);
    RunKeepsInv(s, events);
    if Undisturbed(s, events) { UndisturbedRemovesOnlyItsOwn(s, events); }
  }

  ghost predicate Leads(s: Session, events: seq<Event>, t: Session) {
    Runs(s, events) && Run(s, events) == t
  }

  lemma LeadsFrom(s: Session, e: Event, next: Session, rest: seq<Event>, t: Session)
    requires Enabled(s, e) && Step(s, e) == next && Leads(next, rest, t)
    ensures Leads(s, [e] + rest, t)
  {
    assert ([e] + rest)[1..] == rest;
  }

  /** The next step of the operating thread removes the pending file although it names the other draft. */
  predicate Loses(t: Session, other: nat) {
    t.pending == Some(other) && t.operation.Sweeping? && Step(t, SweepStep).pending == None
  }

  /** The cleanup of a cancelled draft, with another draft published just before the removal. */
  lemma LosingCleanup(s: Session, other: nat)
    requires s.operation == Sweeping(RemoveDirectory, true, false) && s.pending == Some(s.id) && other != s.id
    ensures exists events, t :: Leads(s, events, t) && Loses(t, other)
  {
    var s1 := s.(directory := false, operation := Sweeping(ReadPending, true, false));
    var s2 := s1.(operation := Sweeping(RemovePending, true, false));
    var t := s2.(pending := Some(other));
    var elsewhere := Elsewhere(Some(other));
    assert Leads(t, [], t);
    LeadsFrom(s2, elsewhere, t, [], t);
    LeadsFrom(s1, SweepStep, s2, [elsewhere] + [], t);
    LeadsFrom(s, SweepStep, s1, [SweepStep] + ([elsewhere] + []), t);
  }

  /**
   * It happens: a full session that is cancelled while finalising can take another draft's fresh pending file with it.
   */
  lemma ForeignPendingCanBeLost(s: Session, other: nat)
    requires Inv(s) && s.life.Active? && !Busy(s) && s.count == s.expected && other != s.id
    ensures exists events, t :: Leads(s, events, t) && Loses(t, other)
  {
    var s1 := s.(inFlight := true, operation := WritingDescriptor);
    var s2 := s1.(operation := WritingPending);
    var s3 := s2.(operation := Settling, pending := Some(s.id));
    var s4 := s3.(life := Cancelled);
    var s5 := s4.(inFlight := false, operation := Sweeping(RemoveDirectory, true, false));
    LosingCleanup(s5, other);
    var rest, t :| Leads(s5, rest, t) && Loses(t, other);
    LeadsFrom(s4, Settle, s5, rest, t);
    LeadsFrom(s3, Cancel, s4, [Settle] + rest, t);
    LeadsFrom(s2, WritePending, s3, [Cancel] + ([Settle] + rest), t);
    LeadsFrom(s1, WriteDescriptor, s2, [WritePending] + ([Cancel] + ([Settle] + rest)), t);
    LeadsFrom(s, BeginFinalize, s1, [WriteDescriptor] + ([WritePending] + ([Cancel] + ([Settle] + rest))), t);
  }

  // ---------------------------------------------------------------------------------------------
  // The session object
  // ---------------------------------------------------------------------------------------------

  /** The session's locked sections, and its cleanup run without interruption. */
  class StagingSession {
    const id: nat
    const expected: nat
    var life: Life
    var inFlight: bool
    var count: nat
    var directory: bool
    var pending: Option<nat>
    var published: Option<nat>
    ghost var operation: Operation
    ghost var cancelling: Option<Sweep>

    ghost function View(): Session
      reads this
    {
      Session(id, expected, life, inFlight, count, operation, cancelling, directory, pending, published)
    }

    constructor (id: nat, expected: nat, pending: Option<nat>)
      requires 1 <= expected <= MAX_ITEM_COUNT && pending != Some(id)
      ensures Starting(View()) && Inv(View()) && this.id == id && this.expected == expected && this.pending == pending
    {
      this.id, this.expected, this.pending := id, expected, pending;
      life, inFlight, count, directory, published := Active, false, 0, true, None;
      operation, cancelling := NoOperation, None;
    }

    method BeginOperation() returns (begun: bool)
      requires Inv(View())
      modifies this`inFlight, this`operation
      ensures View() == Step(old(View()), BeginAppend) && Inv(View())
      ensures begun <==> old(life).Active? && !old(inFlight) && old(count) < expected
    {
      if !life.Active? || inFlight || count >= expected {
        return false;
      }
      inFlight, operation := true, Appending;
      return true;
    }

    method BeginFinalization() returns (begun: bool)
      requires Inv(View())
      modifies this`inFlight, this`operation
      ensures View() == Step(old(View()), BeginFinalize) && Inv(View())
      ensures begun <==> old(life).Active? && !old(inFlight) && old(count) == expected
    {
      if !life.Active? || inFlight || count != expected {
        return false;
      }
      inFlight, operation := true, WritingDescriptor;
      return true;
    }

    method FinishAppendLocked() returns (wasCancelled: bool)
      requires Inv(View()) && operation.Appending?
      modifies this`inFlight, this`count, this`operation
      ensures View() == Step(old(View()), FinishAppend) && Inv(View()) && wasCancelled == life.Cancelled?
    {
      wasCancelled := life.Cancelled?;
      if !wasCancelled {
        count := count + 1;
      }
      inFlight, operation := false, if wasCancelled then Sweeping(RemoveDirectory, true, false) else NoOperation;
    }

    method SettleLocked() returns (wasCancelled: bool)
      requires Inv(View()) && operation.Settling?
      modifies this`inFlight, this`life, this`operation, this`published
      ensures View() == Step(old(View()), Settle) && Inv(View()) && wasCancelled == old(life).Cancelled?
    {
      wasCancelled := life.Cancelled?;
      if !wasCancelled {
        life, published := Finalized, Some(count);
      }
      inFlight, operation := false, if wasCancelled then Sweeping(RemoveDirectory, true, false) else NoOperation;
    }

    method FailOperationLocked()
      requires Inv(View()) && operation.Failing?
      modifies this`inFlight, this`life, this`operation
      ensures View() == Step(old(View()), FailOperation) && Inv(View()) && life.Cancelled?
    {
      if life.Active? {
        life := Cancelled;
      }
      inFlight, operation := false, Sweeping(RemoveDirectory, false, operation.swept);
    }

    method CancelLocked() returns (removeNow: bool)
      requires Inv(View())
      modifies this`life, this`cancelling
      ensures View() == Step(old(View()), Cancel) && Inv(View())
      ensures removeNow <==> old(life).Active? && !inFlight
    {
      if !life.Active? {
        return false;
      }
      life := Cancelled;
      removeNow := !inFlight;
      if removeNow {
        cancelling := Some(RemoveDirectory);
      }
    }

    /** The cancelling thread's cleanup with nothing in between. */
    method RemoveNow()
      requires Inv(View()) && cancelling == Some(RemoveDirectory)
      modifies this`directory, this`pending, this`cancelling
      ensures Inv(View()) && cancelling.None? && !directory
      ensures pending == if old(pending) == Some(id) then None else old(pending)
    {
      directory := false;
      if pending == Some(id) {
        pending := None;
      }
      cancelling := None;
    }
  }
}
