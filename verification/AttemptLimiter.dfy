/**
 * The limiter for Bluetooth identity reads: at most a fixed number of attempts in any window, and a minimum distance
 * between attempts on the same peer. It remembers only the attempts of the last window.
 */
module AttemptLimiter {
  import opened Prelude

  datatype Limits = Limits(maximumAttempts: int, windowMilliseconds: int, peerBackoffMilliseconds: int)

  /** What the initialiser demands. */
  predicate Sound(limits: Limits) {
    && limits.maximumAttempts > 0 && limits.windowMilliseconds > 0
    && 1 <= limits.peerBackoffMilliseconds <= limits.windowMilliseconds
  }

  datatype Attempt = Attempt(peerKey: string, startedAt: int)

  // ---------------------------------------------------------------------------------------------
  // The call
  // ---------------------------------------------------------------------------------------------

  /** The attempts younger than one window at time now. */
  function Recent(attempts: seq<Attempt>, window: int, now: int): (r: seq<Attempt>)
    ensures |r| <= |attempts|
  {
    if attempts == [] then []
    else
      var rest := Recent(attempts[1..], window, now);
      if now - attempts[0].startedAt >= window then rest else [attempts[0]] + rest
  }

  predicate Clashes(a: Attempt, backoff: int, peerKey: string, now: int) {
    a.peerKey == peerKey && now - a.startedAt < backoff
  }

  predicate TooSoon(attempts: seq<Attempt>, backoff: int, peerKey: string, now: int) {
    exists i :: 0 <= i < |attempts| && Clashes(attempts[i], backoff, peerKey, now)
  }

  lemma TooSoonFrom(a: Attempt, rest: seq<Attempt>, backoff: int, peerKey: string, now: int)
    ensures TooSoon([a] + rest, backoff, peerKey, now)
       <==> Clashes(a, backoff, peerKey, now) || TooSoon(rest, backoff, peerKey, now)
  {
    var all := [a] + rest;
    assert all[0] == a;
    if TooSoon(rest, backoff, peerKey, now) {
      var i :| 0 <= i < |rest| && Clashes(rest[i], backoff, peerKey, now);
      assert all[i + 1] == rest[i];
    }
    if TooSoon(all, backoff, peerKey, now) {
      var i :| 0 <= i < |all| && Clashes(all[i], backoff, peerKey, now);
      if i > 0 { assert rest[i - 1] == all[i]; }
    }
  }

  function TryAcquire(limits: Limits, attempts: seq<Attempt>, call: Attempt): (seq<Attempt>, bool) {
    var recent := Recent(attempts, limits.windowMilliseconds, call.startedAt);
    if |recent| < limits.maximumAttempts
       && !TooSoon(recent, limits.peerBackoffMilliseconds, call.peerKey, call.startedAt)
    then (recent + [call], true) else (recent, false)
  }

  class Limiter {
    const limits: Limits
    var attempts: seq<Attempt>

    constructor (limits: Limits)
      requires Sound(limits)
      ensures this.limits == limits && attempts == []
    {
      this.limits, attempts := limits, [];
    }

    method TryAcquireAt(peerKey: string, now: int) returns (granted: bool)
      requires now >= 0
      modifies this
      ensures (attempts, granted) == TryAcquire(limits, old(attempts), Attempt(peerKey, now))
    {
      var kept: seq<Attempt> := [];
      var blocked := false;
      var i := |attempts|;
      while i > 0
        invariant 0 <= i <= |attempts| && attempts == old(attempts)
        invariant kept == Recent(attempts[i..], limits.windowMilliseconds, now)
        invariant blocked <==> TooSoon(kept, limits.peerBackoffMilliseconds, peerKey, now)
      {
        i := i - 1;
        assert attempts[i..][1..] == attempts[i + 1..];
        if now - attempts[i].startedAt < limits.windowMilliseconds {
          TooSoonFrom(attempts[i], kept, limits.peerBackoffMilliseconds, peerKey, now);
          kept := [attempts[i]] + kept;
          blocked := blocked || Clashes(attempts[i], limits.peerBackoffMilliseconds, peerKey, now);
        }
      }
      assert attempts[0..] == attempts;
      attempts := kept;
      if |attempts| >= limits.maximumAttempts || blocked {
        return false;
      }
      attempts := attempts + [Attempt(peerKey, now)];
      return true;
    }
  }

  // ---------------------------------------------------------------------------------------------
  // What the limits mean
  // ---------------------------------------------------------------------------------------------

  /** Grants in the half-open window that starts at `from`. */
  function CountIn(grants: seq<Attempt>, from: int, window: int): (n: nat)
    ensures n <= |grants|
  {
    if grants == [] then 0
    else (if from <= grants[0].startedAt < from + window then 1 else 0) + CountIn(grants[1..], from, window)
  }

  /** Two times less than the given distance apart, whichever comes first. */
  predicate Near(a: int, b: int, distance: int) {
    -distance < a - b < distance
  }

  /** Every window, wherever it starts, holds at most the maximum; grants to one peer keep their distance. */
  ghost predicate Respected(limits: Limits, grants: seq<Attempt>) {
    && (forall from: int :: CountIn(grants, from, limits.windowMilliseconds) <= limits.maximumAttempts)
    && (forall i, j :: 0 <= i < j < |grants| && grants[i].peerKey == grants[j].peerKey ==>
          !Near(grants[i].startedAt, grants[j].startedAt, limits.peerBackoffMilliseconds))
  }

  predicate NoneAfter(grants: seq<Attempt>, now: int) {
    forall i :: 0 <= i < |grants| ==> grants[i].startedAt <= now
  }

  lemma {:induction false} CountInAppend(grants: seq<Attempt>, a: Attempt, from: int, window: int)
    ensures CountIn(grants + [a], from, window)
         == CountIn(grants, from, window) + (if from <= a.startedAt < from + window then 1 else 0)
  {
    if grants == [] {
      assert grants + [a] == [a] && [a][1..] == [];
    } else {
      CountInAppend(grants[1..], a, from, window);
      assert (grants + [a])[1..] == grants[1..] + [a];
    }
  }

  /** No window that still contains `now` holds more than the remembered attempts. */
  lemma {:induction false} CountWithinRecent(grants: seq<Attempt>, from: int, window: int, now: int)
    requires NoneAfter(grants, now) && now < from + window
    ensures CountIn(grants, from, window) <= |Recent(grants, window, now)|
  {
    if grants != [] {
      CountWithinRecent(grants[1..], from, window, now);
    }
  }

  /** The window ending at now holds exactly the remembered attempts. */
  lemma {:induction false} CountIsRecent(grants: seq<Attempt>, window: int, now: int)
    requires NoneAfter(grants, now)
    ensures CountIn(grants, now - window + 1, window) == |Recent(grants, window, now)|
  {
    if grants != [] {
      CountIsRecent(grants[1..], window, now);
    }
  }

  /** Forgetting early does no harm: pruning at an earlier time and then now is pruning now. */
  lemma {:induction false} RecentOfRecent(grants: seq<Attempt>, window: int, before: int, now: int)
    requires before <= now
    ensures Recent(Recent(grants, window, before), window, now) == Recent(grants, window, now)
  {
    if grants != [] {
      RecentOfRecent(grants[1..], window, before, now);
      var rest := Recent(grants[1..], window, before);
      if now - grants[0].startedAt < window {
        assert ([grants[0]] + rest)[1..] == rest;
      } else if before - grants[0].startedAt < window {
        assert ([grants[0]] + rest)[1..] == rest;
      }
    }
  }

  lemma {:induction false} RecentAppend(grants: seq<Attempt>, a: Attempt, window: int, now: int)
    ensures Recent(grants + [a], window, now)
         == Recent(grants, window, now) + (if now - a.startedAt >= window then [] else [a])
  {
    var more := grants + [a];
    if grants == [] {
      assert more == [a] && [a][1..] == [];
    } else {
      RecentAppend(grants[1..], a, window, now);
      assert more[1..] == grants[1..] + [a] && more[0] == grants[0];
      var rest, last := Recent(grants[1..], window, now), if now - a.startedAt >= window then [] else [a];
      assert [grants[0]] + (rest + last) == ([grants[0]] + rest) + last;
    }
  }

  /** Since the backoff fits in the window, the remembered attempts decide the backoff for all grants. */
  lemma {:induction false} TooSoonInRecent(grants: seq<Attempt>, window: int, backoff: int, peerKey: string, now: int)
    requires backoff <= window
    ensures TooSoon(Recent(grants, window, now), backoff, peerKey, now) <==> TooSoon(grants, backoff, peerKey, now)
  {
    if grants != [] {
      TooSoonInRecent(grants[1..], window, backoff, peerKey, now);
      assert grants == [grants[0]] + grants[1..];
      TooSoonFrom(grants[0], grants[1..], backoff, peerKey, now);
      TooSoonFrom(grants[0], Recent(grants[1..], window, now), backoff, peerKey, now);
    }
  }

  /** One more grant keeps the limits exactly when the remembered attempts leave room and no attempt is too recent. */
  lemma GrantRespectsIff(limits: Limits, grants: seq<Attempt>, call: Attempt)
    requires Sound(limits) && Respected(limits, grants) && NoneAfter(grants, call.startedAt)
    ensures Respected(limits, grants + [call])
       <==> |Recent(grants, limits.windowMilliseconds, call.startedAt)| < limits.maximumAttempts
            && !TooSoon(grants, limits.peerBackoffMilliseconds, call.peerKey, call.startedAt)
  {
    var window, now, more := limits.windowMilliseconds, call.startedAt, grants + [call];
    assert forall i :: 0 <= i < |grants| ==> more[i] == grants[i];
    assert more[|grants|] == call;
    CountIsRecent(grants, window, now);
    CountInAppend(grants, call, now - window + 1, window);
    if Respected(limits, more) {
      assert CountIn(more, now - window + 1, window) <= limits.maximumAttempts;
    }
    if |Recent(grants, window, now)| < limits.maximumAttempts
       && !TooSoon(grants, limits.peerBackoffMilliseconds, call.peerKey, now)
    {
      forall from: int
        ensures CountIn(more, from, window) <= limits.maximumAttempts
      {
        CountInAppend(grants, call, from, window);
        if from <= now < from + window { CountWithinRecent(grants, from, window, now); }
      }
    }
  }

  // ---------------------------------------------------------------------------------------------
  // Runs
  // ---------------------------------------------------------------------------------------------

  /** The attempts granted by a run of calls, and the memory left, starting from the given memory. */
  function Run(limits: Limits, attempts: seq<Attempt>, calls: seq<Attempt>): (r: (seq<Attempt>, seq<bool>))
    ensures |r.1| == |calls|
    decreases |calls|
  {
    if calls == [] then (attempts, [])
    else
      var (next, granted) := TryAcquire(limits, attempts, calls[0]);
      var rest := Run(limits, next, calls[1..]);
      (rest.0, [granted] + rest.1)
  }

  /** The grants among the calls. */
  function Granted(calls: seq<Attempt>, answers: seq<bool>): seq<Attempt>
    requires |calls| == |answers|
  {
    if calls == [] then [] else (if answers[0] then [calls[0]] else []) + Granted(calls[1..], answers[1..])
  }

  predicate NonDecreasing(calls: seq<Attempt>, since: int)
    decreases |calls|
  {
    calls == [] || (since <= calls[0].startedAt && NonDecreasing(calls[1..], calls[0].startedAt))
  }

  lemma CallIsExact(limits: Limits, grants: seq<Attempt>, since: int, call: Attempt)
    requires Sound(limits) && Respected(limits, grants) && NoneAfter(grants, since) && since <= call.startedAt
    ensures var memory := Recent(grants, limits.windowMilliseconds, since);
            var (next, granted) := TryAcquire(limits, memory, call);
            && (granted <==> Respected(limits, grants + [call]))
            && next == Recent(if granted then grants + [call] else grants, limits.windowMilliseconds, call.startedAt)
  {
    RecentOfRecent(grants, limits.windowMilliseconds, since, call.startedAt);
    TooSoonInRecent(grants, limits.windowMilliseconds, limits.peerBackoffMilliseconds, call.peerKey, call.startedAt);
    GrantRespectsIff(limits, grants, call);
    RecentAppend(grants, call, limits.windowMilliseconds, call.startedAt);
  }

  /** Each call is granted exactly when granting it on top of the grants so far respects the limits. */
  ghost predicate ExactAnswers(limits: Limits, grants: seq<Attempt>, calls: seq<Attempt>, answers: seq<bool>)
    requires |calls| == |answers|
    decreases |calls|
  {
    calls == []
    || ((answers[0] <==> Respected(limits, grants + [calls[0]]))
        && ExactAnswers(limits, if answers[0] then grants + [calls[0]] else grants, calls[1..], answers[1..]))
  }

  /** What a run of calls achieves, given the grants before it. */
  ghost predicate Exact(limits: Limits, grants: seq<Attempt>, calls: seq<Attempt>, answers: seq<bool>) {
    && |calls| == |answers|
    && Respected(limits, grants + Granted(calls, answers))
    && ExactAnswers(limits, grants, calls, answers)
  }

  lemma ExactFrom(limits: Limits, grants: seq<Attempt>, calls: seq<Attempt>, granted: bool, rest: seq<bool>)
    requires calls != [] && (granted <==> Respected(limits, grants + [calls[0]]))
    requires Exact(limits, if granted then grants + [calls[0]] else grants, calls[1..], rest)
    ensures Exact(limits, grants, calls, [granted] + rest)
  {
    var answers, more := [granted] + rest, if granted then grants + [calls[0]] else grants;
    assert answers[1..] == rest;
    assert grants + Granted(calls, answers) == more + Granted(calls[1..], rest);
  }

  /**
   * Over every run of calls at non-decreasing times: all limits are respected by all grants together, and a call is
   * refused only when granting it would break one of them.
   */
  lemma {:induction false} LimiterIsExact(limits: Limits, grants: seq<Attempt>, since: int, calls: seq<Attempt>)
    requires Sound(limits) && Respected(limits, grants) && NoneAfter(grants, since) && NonDecreasing(calls, since)
    ensures Exact(limits, grants, calls, Run(limits, Recent(grants, limits.windowMilliseconds, since), calls).1)
    decreases |calls|
  {
    var memory := Recent(grants, limits.windowMilliseconds, since);
    if calls == [] {
      assert grants + [] == grants;
    } else {
      var call := calls[0];
      CallIsExact(limits, grants, since, call);
      var (next, granted) := TryAcquire(limits, memory, call);
      LimiterIsExact(limits, if granted then grants + [call] else grants, call.startedAt, calls[1..]);
      ExactFrom(limits, grants, calls, granted, Run(limits, next, calls[1..]).1);
    }
  }

  /** A clock that runs backwards defeats it: three grants in one window of two. */
  lemma BackwardClockBreaksTheLimit()
    ensures var limits := Limits(2, 10, 1);
            var calls := [Attempt("a", 0), Attempt("b", 0), Attempt("c", 10), Attempt("d", 5)];
            Sound(limits) && Run(limits, [], calls).1 == [true, true, true, true] && CountIn(calls, 0, 10) == 3
  {
    var limits := Limits(2, 10, 1);
    var a, b, c, d := Attempt("a", 0), Attempt("b", 0), Attempt("c", 10), Attempt("d", 5);
    var calls := [a, b, c, d];
    assert "a"[0] != "b"[0] && "c"[0] != "d"[0];
    assert [] + [a] == [a] && [a] + [b] == [a, b] && [] + [c] == [c] && [c] + [d] == [c, d];
    assert [a][1..] == [] && [a, b][1..] == [b] && [b][1..] == [] && [c][1..] == [] && [a] + [] == [a]
        && [c] + [] == [c];
    assert Recent([a], 10, 0) == [a] && Recent([a, b], 10, 10) == [] && Recent([c], 10, 5) == [c];
    assert TryAcquire(limits, [], a) == ([a], true);
    assert !TooSoon([a], 1, "b", 0) && !TooSoon([c], 1, "d", 5);
    assert TryAcquire(limits, [a], b) == ([a, b], true);
    assert TryAcquire(limits, [a, b], c) == ([c], true);
    assert TryAcquire(limits, [c], d) == ([c, d], true);
    assert calls[1..] == [b, c, d] && [b, c, d][1..] == [c, d] && [c, d][1..] == [d] && [d][1..] == [];
    assert Run(limits, [c], [d]).1 == [true];
    assert Run(limits, [a, b], [c, d]).1 == [true, true];
    assert Run(limits, [a], [b, c, d]).1 == [true, true, true];
    assert CountIn([d], 0, 10) == 1 && CountIn([c, d], 0, 10) == 1 && CountIn([b, c, d], 0, 10) == 2;
  }

  // ---------------------------------------------------------------------------------------------
  // Which times the limiter copes with
  // ---------------------------------------------------------------------------------------------

  /** Memory and grants after the calls, in the order of the calls. */
  function Past(limits: Limits, calls: seq<Attempt>): (seq<Attempt>, seq<Attempt>) {
    if calls == [] then ([], [])
    else
      var before := Past(limits, calls[..|calls| - 1]);
      var call := calls[|calls| - 1];
      var (memory, granted) := TryAcquire(limits, before.0, call);
      (memory, if granted then before.1 + [call] else before.1)
  }

  lemma {:induction false} RunAppend(limits: Limits, memory: seq<Attempt>, calls: seq<Attempt>, call: Attempt)
    ensures var before := Run(limits, memory, calls); var (next, granted) := TryAcquire(limits, before.0, call);
            Run(limits, memory, calls + [call]) == (next, before.1 + [granted])
    decreases |calls|
  {
    var more := calls + [call];
    if calls == [] {
      assert more[1..] == [] && more[0] == call;
      assert [TryAcquire(limits, memory, call).1] + [] == [] + [TryAcquire(limits, memory, call).1];
    } else {
      assert more[1..] == calls[1..] + [call] && more[0] == calls[0];
      var (next, granted) := TryAcquire(limits, memory, calls[0]);
      RunAppend(limits, next, calls[1..], call);
      var rest := Run(limits, next, calls[1..]);
      var last := TryAcquire(limits, rest.0, call).1;
      assert [granted] + (rest.1 + [last]) == ([granted] + rest.1) + [last];
    }
  }

  lemma {:induction false} GrantedAppend(calls: seq<Attempt>, answers: seq<bool>, call: Attempt, answer: bool)
    requires |calls| == |answers|
    ensures Granted(calls + [call], answers + [answer]) == Granted(calls, answers) + if answer then [call] else []
  {
    var more, told := calls + [call], answers + [answer];
    if calls == [] {
      assert more[1..] == [] && told[1..] == [];
    } else {
      assert more[1..] == calls[1..] + [call] && told[1..] == answers[1..] + [answer];
      GrantedAppend(calls[1..], answers[1..], call, answer);
    }
  }

  /** It is the run of the limiter from empty memory. */
  lemma {:induction false} PastIsRun(limits: Limits, calls: seq<Attempt>)
    ensures var run := Run(limits, [], calls); Past(limits, calls) == (run.0, Granted(calls, run.1))
  {
    if calls != [] {
      var most, call := calls[..|calls| - 1], calls[|calls| - 1];
      assert calls == most + [call];
      PastIsRun(limits, most);
      RunAppend(limits, [], most, call);
      var before := Run(limits, [], most);
      GrantedAppend(most, before.1, call, TryAcquire(limits, before.0, call).1);
      assert Granted(most, before.1) + [] == Granted(most, before.1);
    }
  }

  /** Nothing that an earlier call made the limiter forget is within a window of time t. */
  predicate Clean(calls: seq<Attempt>, window: int, t: int) {
    forall i, j :: 0 <= i < j < |calls| && calls[j].startedAt - calls[i].startedAt >= window ==>
      !Near(t, calls[i].startedAt, window)
  }

  /** No call comes back to within a window of an earlier one after a call at least a window later than that one. */
  predicate NoRelapse(times: seq<int>, window: int) {
    forall i, j, k :: 0 <= i < j < k < |times| && times[j] - times[i] >= window ==> !Near(times[k], times[i], window)
  }

  lemma {:induction false} RecentMember(attempts: seq<Attempt>, window: int, now: int, a: Attempt)
    ensures a in Recent(attempts, window, now) <==> a in attempts && now - a.startedAt < window
  {
    if attempts != [] {
      RecentMember(attempts[1..], window, now, a);
      assert attempts == [attempts[0]] + attempts[1..];
    }
  }

  /** Pruning does not change a window that holds nothing of what is pruned. */
  lemma {:induction false} RecentKeepsCount(attempts: seq<Attempt>, window: int, now: int, from: int)
    requires forall i :: 0 <= i < |attempts| && now - attempts[i].startedAt >= window ==>
               !(from <= attempts[i].startedAt < from + window)
    ensures CountIn(Recent(attempts, window, now), from, window) == CountIn(attempts, from, window)
  {
    if attempts != [] {
      RecentKeepsCount(attempts[1..], window, now, from);
      var rest := Recent(attempts[1..], window, now);
      assert ([attempts[0]] + rest)[1..] == rest;
    }
  }

  /** What the limiter knows when a call comes at a clean time: every grant within a window of it. */
  ghost predicate Remembers(memory: seq<Attempt>, grants: seq<Attempt>, window: int, t: int) {
    && (forall g <- grants :: Near(t, g.startedAt, window) ==> g in memory)
    && (forall from: int :: from <= t < from + window ==>
          CountIn(grants, from, window) == CountIn(memory, from, window))
  }

  lemma {:induction false} MemoryComesFromCalls(limits: Limits, calls: seq<Attempt>)
    ensures forall m <- Past(limits, calls).0 :: m in calls
    ensures forall g <- Past(limits, calls).1 :: g in calls
    ensures |Past(limits, calls).0| <= |calls|
  {
    if calls != [] {
      var most, call := calls[..|calls| - 1], calls[|calls| - 1];
      assert calls == most + [call];
      MemoryComesFromCalls(limits, most);
      forall m <- Past(limits, calls).0
        ensures m in calls
      {
        RecentMember(Past(limits, most).0, limits.windowMilliseconds, call.startedAt, m);
      }
    }
  }

  /** Pruning at a call keeps what matters at every time that stays clean after it. */
  lemma PruningRemembers(
    memory: seq<Attempt>, grants: seq<Attempt>, calls: seq<Attempt>, call: Attempt, window: int, t: int)
    requires Remembers(memory, grants, window, t)
    requires (forall m <- memory :: m in calls) && Clean(calls + [call], window, t)
    ensures Remembers(Recent(memory, window, call.startedAt), grants, window, t)
  {
    var more := calls + [call];
    forall m | m in memory && call.startedAt - m.startedAt >= window
      ensures !Near(t, m.startedAt, window)
    {
      var i :| 0 <= i < |calls| && calls[i] == m;
      assert more[i] == m && more[|calls|] == call;
    }
    forall g <- grants
      ensures Near(t, g.startedAt, window) ==> g in Recent(memory, window, call.startedAt)
    {
      RecentMember(memory, window, call.startedAt, g);
    }
    forall from: int | from <= t < from + window
      ensures CountIn(grants, from, window) == CountIn(Recent(memory, window, call.startedAt), from, window)
    {
      forall i | 0 <= i < |memory| && call.startedAt - memory[i].startedAt >= window
        ensures !(from <= memory[i].startedAt < from + window)
      {
        assert memory[i] in memory;
      }
      RecentKeepsCount(memory, window, call.startedAt, from);
    }
  }

  lemma GrantRemembers(memory: seq<Attempt>, grants: seq<Attempt>, call: Attempt, window: int, t: int)
    requires Remembers(memory, grants, window, t)
    ensures Remembers(memory + [call], grants + [call], window, t)
  {
    forall from: int | from <= t < from + window
      ensures CountIn(grants + [call], from, window) == CountIn(memory + [call], from, window)
    {
      CountInAppend(grants, call, from, window);
      CountInAppend(memory, call, from, window);
    }
  }

  lemma CleanPrefix(calls: seq<Attempt>, call: Attempt, window: int, t: int)
    requires Clean(calls + [call], window, t)
    ensures Clean(calls, window, t)
  {
    var more := calls + [call];
    assert forall i :: 0 <= i < |calls| ==> more[i] == calls[i];
  }

  lemma {:induction false} PastRemembers(limits: Limits, calls: seq<Attempt>, t: int)
    requires Clean(calls, limits.windowMilliseconds, t)
    ensures Remembers(Past(limits, calls).0, Past(limits, calls).1, limits.windowMilliseconds, t)
  {
    if calls != [] {
      var most, call := calls[..|calls| - 1], calls[|calls| - 1];
      assert calls == most + [call];
      CleanPrefix(most, call, limits.windowMilliseconds, t);
      PastRemembers(limits, most, t);
      MemoryComesFromCalls(limits, most);
      var (memory, grants) := Past(limits, most);
      PruningRemembers(memory, grants, most, call, limits.windowMilliseconds, t);
      GrantRemembers(Recent(memory, limits.windowMilliseconds, call.startedAt), grants, call,
          limits.windowMilliseconds, t);
    }
  }

  /** Whatever shares a window with now survives the pruning at now. */
  lemma {:induction false} CountFitsRecent(attempts: seq<Attempt>, window: int, now: int, from: int)
    requires from <= now < from + window
    ensures CountIn(attempts, from, window) <= |Recent(attempts, window, now)|
  {
    if attempts != [] { CountFitsRecent(attempts[1..], window, now, from); }
  }

  lemma MemberTooSoon(attempts: seq<Attempt>, a: Attempt, backoff: int, peerKey: string, now: int)
    ensures a in attempts && Clashes(a, backoff, peerKey, now) ==> TooSoon(attempts, backoff, peerKey, now)
  {
  }

  /** A grant at a clean time keeps the limits. */
  lemma CleanGrantRespects(limits: Limits, memory: seq<Attempt>, grants: seq<Attempt>, call: Attempt)
    requires Sound(limits) && Respected(limits, grants) && TryAcquire(limits, memory, call).1
    requires Remembers(memory, grants, limits.windowMilliseconds, call.startedAt)
    ensures Respected(limits, grants + [call])
  {
    var window, now, more := limits.windowMilliseconds, call.startedAt, grants + [call];
    forall from: int
      ensures CountIn(more, from, window) <= limits.maximumAttempts
    {
      CountInAppend(grants, call, from, window);
      if from <= now < from + window { CountFitsRecent(memory, window, now, from); }
    }
    forall i | 0 <= i < |grants| && grants[i].peerKey == call.peerKey
      ensures !Near(grants[i].startedAt, now, limits.peerBackoffMilliseconds)
    {
      RecentMember(memory, window, now, grants[i]);
      assert grants[i] in grants;
      MemberTooSoon(Recent(memory, window, now), grants[i], limits.peerBackoffMilliseconds, call.peerKey, now);
    }
    assert forall i :: 0 <= i < |grants| ==> more[i] == grants[i];
  }

  function TimesOf(calls: seq<Attempt>): (r: seq<int>)
    ensures |r| == |calls| && forall i :: 0 <= i < |calls| ==> r[i] == calls[i].startedAt
  {
    seq(|calls|, i requires 0 <= i < |calls| => calls[i].startedAt)
  }

  lemma {:induction false} NoRelapseRespects(limits: Limits, calls: seq<Attempt>)
    requires Sound(limits) && NoRelapse(TimesOf(calls), limits.windowMilliseconds)
    ensures Respected(limits, Past(limits, calls).1)
  {
    if calls != [] {
      var most, call := calls[..|calls| - 1], calls[|calls| - 1];
      assert forall i :: 0 <= i < |most| ==> TimesOf(most)[i] == TimesOf(calls)[i];
      NoRelapseRespects(limits, most);
      forall i, j | 0 <= i < j < |most| && most[j].startedAt - most[i].startedAt >= limits.windowMilliseconds
        ensures !Near(call.startedAt, most[i].startedAt, limits.windowMilliseconds)
      {
        assert TimesOf(calls)[|most|] == call.startedAt && TimesOf(calls)[i] == most[i].startedAt
            && TimesOf(calls)[j] == most[j].startedAt;
      }
      PastRemembers(limits, most, call.startedAt);
      var (memory, grants) := Past(limits, most);
      if TryAcquire(limits, memory, call).1 { CleanGrantRespects(limits, memory, grants, call); }
    }
  }

  /** The calls that turn a relapse at i, j, k against the limiter: the same peer at i and k, another at all others. */
  function Witness(times: seq<int>, i: nat, k: nat): (r: seq<Attempt>)
    ensures |r| == |times|
    ensures forall x :: 0 <= x < |r| ==> r[x] == Attempt(if x == i || x == k then "a" else "b", times[x])
  {
    seq(|times|, x requires 0 <= x < |times| => Attempt(if x == i || x == k then "a" else "b", times[x]))
  }

  predicate Lacks(attempts: seq<Attempt>, peerKey: string) {
    forall a <- attempts :: a.peerKey != peerKey
  }

  lemma PastStep(limits: Limits, calls: seq<Attempt>, n: nat)
    requires n < |calls|
    ensures var before := Past(limits, calls[..n]); var (memory, granted) := TryAcquire(limits, before.0, calls[n]);
            Past(limits, calls[..n + 1]) == (memory, if granted then before.1 + [calls[n]] else before.1)
  {
    assert calls[..n + 1][..n] == calls[..n] && calls[..n + 1][n] == calls[n];
  }

  /** With room for every call, a call whose peer is not remembered is granted. */
  lemma UnknownPeerIsGranted(limits: Limits, calls: seq<Attempt>, n: nat)
    requires n < |calls| < limits.maximumAttempts && Lacks(Past(limits, calls[..n]).0, calls[n].peerKey)
    ensures Past(limits, calls[..n + 1]).1 == Past(limits, calls[..n]).1 + [calls[n]]
  {
    var memory, call := Past(limits, calls[..n]).0, calls[n];
    PastStep(limits, calls, n);
    MemoryComesFromCalls(limits, calls[..n]);
    forall x | 0 <= x < |Recent(memory, limits.windowMilliseconds, call.startedAt)|
      ensures !Clashes(Recent(memory, limits.windowMilliseconds, call.startedAt)[x], limits.peerBackoffMilliseconds,
                       call.peerKey, call.startedAt)
    {
      RecentMember(memory, limits.windowMilliseconds, call.startedAt,
                   Recent(memory, limits.windowMilliseconds, call.startedAt)[x]);
    }
  }

  /** A peer stays unknown while others call. */
  lemma {:induction false} StaysUnknown(limits: Limits, calls: seq<Attempt>, from: nat, to: nat, peerKey: string)
    requires from <= to <= |calls| && Lacks(Past(limits, calls[..from]).0, peerKey)
    requires forall x :: from <= x < to ==> calls[x].peerKey != peerKey
    ensures Lacks(Past(limits, calls[..to]).0, peerKey)
  {
    if from < to {
      StaysUnknown(limits, calls, from, to - 1, peerKey);
      var memory, call := Past(limits, calls[..to - 1]).0, calls[to - 1];
      PastStep(limits, calls, to - 1);
      forall a <- Past(limits, calls[..to]).0
        ensures a.peerKey != peerKey
      {
        RecentMember(memory, limits.windowMilliseconds, call.startedAt, a);
      }
    }
  }

  /** The call at j makes the limiter forget the peer of call i. */
  lemma RelapseForgets(limits: Limits, times: seq<int>, i: nat, j: nat, k: nat)
    requires i < j < k < |times| && times[j] - times[i] >= limits.windowMilliseconds
    ensures Lacks(Past(limits, Witness(times, i, k)[..j + 1]).0, "a")
  {
    var calls := Witness(times, i, k);
    assert "b"[0] != "a"[0];
    PastStep(limits, calls, j);
    MemoryComesFromCalls(limits, calls[..j]);
    forall a <- Past(limits, calls[..j + 1]).0
      ensures a.peerKey != "a"
    {
      RecentMember(Past(limits, calls[..j]).0, limits.windowMilliseconds, calls[j].startedAt, a);
      if a in calls[..j] {
        var x :| 0 <= x < j && calls[..j][x] == a;
        assert a == calls[x];
      }
    }
  }

  lemma {:induction false} GrantsStay(limits: Limits, calls: seq<Attempt>, from: nat, to: nat)
    requires from <= to <= |calls|
    ensures Past(limits, calls[..from]).1 <= Past(limits, calls[..to]).1
  {
    if from < to {
      GrantsStay(limits, calls, from, to - 1);
      PastStep(limits, calls, to - 1);
    }
  }

  /** Call i is granted because its peer has not called, call k because its peer has been forgotten. */
  lemma BothGranted(limits: Limits, times: seq<int>, i: nat, j: nat, k: nat)
    requires i < j < k < |times| < limits.maximumAttempts && times[j] - times[i] >= limits.windowMilliseconds
    ensures var calls := Witness(times, i, k);
            && Past(limits, calls[..i + 1]).1 == Past(limits, calls[..i]).1 + [calls[i]]
            && Past(limits, calls[..k + 1]).1 == Past(limits, calls[..k]).1 + [calls[k]]
  {
    var calls := Witness(times, i, k);
    assert "b"[0] != "a"[0];
    assert calls[..0] == [];
    StaysUnknown(limits, calls, 0, i, "a");
    UnknownPeerIsGranted(limits, calls, i);
    RelapseForgets(limits, times, i, j, k);
    StaysUnknown(limits, calls, j + 1, k, "a");
    UnknownPeerIsGranted(limits, calls, k);
  }

  lemma GrantStays(limits: Limits, calls: seq<Attempt>, i: nat, to: nat)
    requires i < to <= |calls| && Past(limits, calls[..i + 1]).1 == Past(limits, calls[..i]).1 + [calls[i]]
    ensures Past(limits, calls[..i]).1 + [calls[i]] <= Past(limits, calls[..to]).1
  {
    GrantsStay(limits, calls, i + 1, to);
  }

  lemma Positions(first: seq<Attempt>, a: Attempt, later: seq<Attempt>, b: Attempt, all: seq<Attempt>)
    requires first + [a] <= later && later + [b] <= all
    ensures |first| < |later| < |all| && all[|first|] == a && all[|later|] == b
  {
    assert later[|first|] == (first + [a])[|first|];
    assert all[|later|] == (later + [b])[|later|] && all[|first|] == (later + [b])[|first|];
  }

  /** A relapse can be turned into two grants to one peer closer than the backoff. */
  lemma RelapseBreaksTheLimits(limits: Limits, times: seq<int>, i: nat, j: nat, k: nat)
    requires Sound(limits) && limits.peerBackoffMilliseconds == limits.windowMilliseconds
    requires i < j < k < |times| < limits.maximumAttempts && times[j] - times[i] >= limits.windowMilliseconds
    requires Near(times[k], times[i], limits.windowMilliseconds)
    ensures !Respected(limits, Past(limits, Witness(times, i, k)).1)
  {
    var calls := Witness(times, i, k);
    BothGranted(limits, times, i, j, k);
    GrantStays(limits, calls, i, k);
    GrantStays(limits, calls, k, |calls|);
    assert calls[..|calls|] == calls;
    var grants := Past(limits, calls).1;
    var p, q := |Past(limits, calls[..i]).1|, |Past(limits, calls[..k]).1|;
    Positions(Past(limits, calls[..i]).1, calls[i], Past(limits, calls[..k]).1, calls[k], grants);
    assert grants[p].peerKey == grants[q].peerKey
        && Near(grants[p].startedAt, grants[q].startedAt, limits.windowMilliseconds);
  }

  /** Whoever calls and whatever the limits with this window, the grants respect them. */
  ghost predicate AlwaysRespected(times: seq<int>, window: int) {
    forall limits: Limits, calls: seq<Attempt> ::
      Sound(limits) && limits.windowMilliseconds == window && TimesOf(calls) == times ==>
        Respected(limits, Past(limits, calls).1)
  }

  /**
   * The exact condition on the times of the calls: the limits are respected for every choice of peers, maximum and
   * backoff if and only if the times have no relapse.
   */
  lemma RespectedIffNoRelapse(times: seq<int>, window: int)
    requires window > 0
    ensures AlwaysRespected(times, window) <==> NoRelapse(times, window)
  {
    if NoRelapse(times, window) {
      forall limits: Limits, calls: seq<Attempt>
        | Sound(limits) && limits.windowMilliseconds == window && TimesOf(calls) == times
        ensures Respected(limits, Past(limits, calls).1)
      {
        NoRelapseRespects(limits, calls);
      }
    } else {
      RelapseIsNotRespected(times, window);
    }
  }

  lemma RelapseIsNotRespected(times: seq<int>, window: int)
    requires window > 0 && !NoRelapse(times, window)
    ensures !AlwaysRespected(times, window)
  {
    var i, j, k :| 0 <= i < j < k < |times| && times[j] - times[i] >= window && Near(times[k], times[i], window);
    var limits := Limits(|times| + 1, window, window);
    RelapseBreaksTheLimits(limits, times, i, j, k);
    WitnessHasTheTimes(times, i, k);
    NotAlwaysRespected(times, window, limits, Witness(times, i, k));
  }

  lemma WitnessHasTheTimes(times: seq<int>, i: nat, k: nat)
    ensures TimesOf(Witness(times, i, k)) == times
  {
  }

  lemma NotAlwaysRespected(times: seq<int>, window: int, limits: Limits, calls: seq<Attempt>)
    requires Sound(limits) && limits.windowMilliseconds == window && TimesOf(calls) == times
    requires !Respected(limits, Past(limits, calls).1)
    ensures !AlwaysRespected(times, window)
  {
  }

  /** A clock that never goes back, as the app's uptime does not, has no relapse. */
  lemma SteadyTimesHaveNoRelapse(times: seq<int>, window: int)
    requires window > 0 && forall i, j :: 0 <= i < j < |times| ==> times[i] <= times[j]
    ensures NoRelapse(times, window)
  {
  }
}
