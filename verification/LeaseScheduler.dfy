/**
 * The process-wide Wi-Fi Aware lease scheduler.
 *
 * Requests for sets of roles queue in arrival order. A waiter runs as soon as none of its roles is in use
 * and none is wanted by an earlier waiter. Each actor turn (request, cancel, release) is one atomic step.
 */
module LeaseScheduler {
  import opened Prelude

  datatype Role = Publisher | Subscriber

  datatype Purpose = Control | Diagnostic | SystemPairing | TransferReceiver | TransferSender {
    function Roles(): (r: set<Role>)
      ensures r != {}
    {
      match this
      case Control | Diagnostic | SystemPairing => {Publisher, Subscriber}
      case TransferReceiver => {Publisher}
      case TransferSender => {Subscriber}
    }
  }

  type Token = nat

  datatype Waiter = Waiter(token: Token, purpose: Purpose)

  // ---------------------------------------------------------------------------------------------
  // Specification of one grant pass
  // ---------------------------------------------------------------------------------------------

  /** Roles held by some active lease. */
  function RolesInUse(active: map<Token, Purpose>): set<Role> {
    set t, r | t in active && r in active[t].Roles() :: r
  }

  /** Roles wanted by some request in the list. */
  function RolesOf(waiters: seq<Waiter>): set<Role> {
    set i, r | 0 <= i < |waiters| && r in waiters[i].purpose.Roles() :: r
  }

  /** Waiter i is blocked by an active lease or by any request ahead of it, granted in this pass or not. */
  predicate Blocked(active: map<Token, Purpose>, waiters: seq<Waiter>, i: nat)
    requires i < |waiters|
  {
    !(waiters[i].purpose.Roles() !! RolesInUse(active) + RolesOf(waiters[..i]))
  }

  /** The blocked requests among the first n, in order. */
  function Kept(active: map<Token, Purpose>, waiters: seq<Waiter>, n: nat): (r: seq<Waiter>)
    requires n <= |waiters|
  {
    if n == 0 then []
    else if Blocked(active, waiters, n - 1) then Kept(active, waiters, n - 1) + [waiters[n - 1]]
    else Kept(active, waiters, n - 1)
  }

  /** The leases after the unblocked requests among the first n have been granted. */
  function Granted(active: map<Token, Purpose>, waiters: seq<Waiter>, n: nat): (r: map<Token, Purpose>)
    requires n <= |waiters|
  {
    if n == 0 then active
    else if Blocked(active, waiters, n - 1) then Granted(active, waiters, n - 1)
    else Granted(active, waiters, n - 1)[waiters[n - 1].token := waiters[n - 1].purpose]
  }

  /** Tokens waiting and tokens holding a lease never coincide, and no token waits twice. */
  ghost predicate DistinctTokens(active: map<Token, Purpose>, waiters: seq<Waiter>) {
    && (forall i, j :: 0 <= i < j < |waiters| ==> waiters[i].token != waiters[j].token)
    && (forall i :: 0 <= i < |waiters| ==> waiters[i].token !in active)
  }

  lemma RolesOfPrefix(waiters: seq<Waiter>, n: nat)
    requires n < |waiters|
    ensures RolesOf(waiters[..n + 1]) == RolesOf(waiters[..n]) + waiters[n].purpose.Roles()
  {
    var a, b := waiters[..n + 1], waiters[..n];
    forall r | r in RolesOf(a)
      ensures r in RolesOf(b) + waiters[n].purpose.Roles()
    {
      var i :| 0 <= i < |a| && r in a[i].purpose.Roles();
      if i < n { assert b[i] == a[i]; }
    }
    forall r | r in RolesOf(b)
      ensures r in RolesOf(a)
    {
      var i :| 0 <= i < |b| && r in b[i].purpose.Roles();
      assert a[i] == b[i];
    }
    forall r | r in waiters[n].purpose.Roles()
      ensures r in RolesOf(a)
    {
      assert a[n] == waiters[n];
    }
  }

  lemma RolesInUseAfterGrant(active: map<Token, Purpose>, t: Token, p: Purpose)
    requires t !in active
    ensures RolesInUse(active[t := p]) == RolesInUse(active) + p.Roles()
  {
    var after := active[t := p];
    forall r | r in RolesInUse(active)
      ensures r in RolesInUse(after)
    {
      var u :| u in active && r in active[u].Roles();
      assert u in after && after[u] == active[u];
    }
    forall r | r in p.Roles()
      ensures r in RolesInUse(after)
    {
      assert after[t] == p;
    }
  }

  /** Old leases survive a pass unchanged. */
  lemma {:induction false} GrantedKeepsActive(active: map<Token, Purpose>, waiters: seq<Waiter>, n: nat, t: Token)
    requires n <= |waiters| && DistinctTokens(active, waiters) && t in active
    ensures t in Granted(active, waiters, n) && Granted(active, waiters, n)[t] == active[t]
  {
    if n > 0 {
      GrantedKeepsActive(active, waiters, n - 1, t);
    }
  }

  /** Every unblocked request is granted. */
  lemma {:induction false} GrantedTakesUnblocked(active: map<Token, Purpose>, waiters: seq<Waiter>, n: nat, i: nat)
    requires i < n <= |waiters| && DistinctTokens(active, waiters) && !Blocked(active, waiters, i)
    ensures waiters[i].token in Granted(active, waiters, n)
    ensures Granted(active, waiters, n)[waiters[i].token] == waiters[i].purpose
  {
    if i < n - 1 {
      GrantedTakesUnblocked(active, waiters, n - 1, i);
    }
  }

  /** Nothing else is granted. */
  lemma {:induction false} GrantedOrigin(active: map<Token, Purpose>, waiters: seq<Waiter>, n: nat, t: Token)
    returns (i: nat)
    requires n <= |waiters| && DistinctTokens(active, waiters)
    requires t in Granted(active, waiters, n) && t !in active
    ensures i < n && !Blocked(active, waiters, i) && waiters[i].token == t
    ensures Granted(active, waiters, n)[t] == waiters[i].purpose
  {
    if Blocked(active, waiters, n - 1) || waiters[n - 1].token != t {
      i := GrantedOrigin(active, waiters, n - 1, t);
    } else {
      i := n - 1;
    }
  }

  lemma NotYetGranted(active: map<Token, Purpose>, waiters: seq<Waiter>, n: nat)
    requires n < |waiters| && DistinctTokens(active, waiters)
    ensures waiters[n].token !in Granted(active, waiters, n)
  {
    if waiters[n].token in Granted(active, waiters, n) {
      var i := GrantedOrigin(active, waiters, n, waiters[n].token);
    }
  }

  /** Scanning one more request moves its roles to the leases or to the kept requests. */
  lemma ScanMovesRoles(active: map<Token, Purpose>, waiters: seq<Waiter>, n: nat)
    requires n < |waiters| && DistinctTokens(active, waiters)
    ensures RolesInUse(Granted(active, waiters, n + 1))
         == RolesInUse(Granted(active, waiters, n))
            + if Blocked(active, waiters, n) then {} else waiters[n].purpose.Roles()
    ensures RolesOf(Kept(active, waiters, n + 1))
         == RolesOf(Kept(active, waiters, n)) + if Blocked(active, waiters, n) then waiters[n].purpose.Roles() else {}
  {
    if Blocked(active, waiters, n) {
      RolesOfAppend(Kept(active, waiters, n), waiters[n]);
    } else {
      NotYetGranted(active, waiters, n);
      RolesInUseAfterGrant(Granted(active, waiters, n), waiters[n].token, waiters[n].purpose);
    }
  }

  /**
   * While scanning, roles in use together with roles reserved by the kept prefix are exactly the roles of the
   * original leases and of every request already scanned: the mutable loop computes the declarative `Blocked`.
   */
  lemma {:induction false} ScanAccumulates(active: map<Token, Purpose>, waiters: seq<Waiter>, n: nat)
    requires n <= |waiters| && DistinctTokens(active, waiters)
    ensures RolesInUse(Granted(active, waiters, n)) + RolesOf(Kept(active, waiters, n))
         == RolesInUse(active) + RolesOf(waiters[..n])
  {
    if n == 0 {
      assert waiters[..0] == [];
    } else {
      ScanAccumulates(active, waiters, n - 1);
      RolesOfPrefix(waiters, n - 1);
      ScanMovesRoles(active, waiters, n - 1);
    }
  }

  /** The loop's test at position n decides `Blocked`, whatever was granted or reserved on the way. */
  lemma ScanDecides(active: map<Token, Purpose>, waiters: seq<Waiter>, n: nat)
    requires n < |waiters| && DistinctTokens(active, waiters)
    ensures var roles := waiters[n].purpose.Roles();
            Blocked(active, waiters, n)
            <==> !(roles !! RolesInUse(Granted(active, waiters, n)) && roles !! RolesOf(Kept(active, waiters, n)))
  {
    ScanAccumulates(active, waiters, n);
  }

  /** The queue as the loop sees it after n requests: the kept ones, then the rest. */
  ghost function Remaining(active: map<Token, Purpose>, waiters: seq<Waiter>, n: nat): seq<Waiter>
    requires n <= |waiters|
  {
    Kept(active, waiters, n) + waiters[n..]
  }

  lemma ScanKeeps(active: map<Token, Purpose>, waiters: seq<Waiter>, n: nat)
    requires n < |waiters| && Blocked(active, waiters, n)
    ensures Remaining(active, waiters, n + 1) == Remaining(active, waiters, n)
    ensures |Kept(active, waiters, n + 1)| == |Kept(active, waiters, n)| + 1
    ensures RolesOf(Kept(active, waiters, n + 1)) == RolesOf(Kept(active, waiters, n)) + waiters[n].purpose.Roles()
    ensures Granted(active, waiters, n + 1) == Granted(active, waiters, n)
  {
    RolesOfAppend(Kept(active, waiters, n), waiters[n]);
  }

  lemma ScanGrants(active: map<Token, Purpose>, waiters: seq<Waiter>, n: nat)
    requires n < |waiters| && !Blocked(active, waiters, n)
    ensures var current, at := Remaining(active, waiters, n), |Kept(active, waiters, n)|;
            Remaining(active, waiters, n + 1) == current[..at] + current[at + 1..]
    ensures Kept(active, waiters, n + 1) == Kept(active, waiters, n)
    ensures Granted(active, waiters, n + 1) == Granted(active, waiters, n)[waiters[n].token := waiters[n].purpose]
  {
  }

  /** The variables of the scan. */
  datatype Scan = Scan(active: map<Token, Purpose>, waiters: seq<Waiter>, index: int, reserved: set<Role>)

  /** What they hold after n requests. */
  ghost function ScanAt(leases: map<Token, Purpose>, queue: seq<Waiter>, n: nat): Scan
    requires n <= |queue|
  {
    Scan(Granted(leases, queue, n), Remaining(leases, queue, n), |Kept(leases, queue, n)|,
        RolesOf(Kept(leases, queue, n)))
  }

  /** One turn of the loop on its variables. */
  function ScanNext(v: Scan): Scan
    requires 0 <= v.index < |v.waiters|
  {
    var w := v.waiters[v.index];
    var roles := w.purpose.Roles();
    if roles !! RolesInUse(v.active) && roles !! v.reserved then
      v.(active := v.active[w.token := w.purpose], waiters := v.waiters[..v.index] + v.waiters[v.index + 1..])
    else v.(index := v.index + 1, reserved := v.reserved + roles)
  }

  lemma ScanStarts(leases: map<Token, Purpose>, queue: seq<Waiter>)
    ensures ScanAt(leases, queue, 0) == Scan(leases, queue, 0, {})
  {
    assert queue[0..] == queue && [] + queue == queue;
  }

  /** The mutable loop follows the declarative pass. */
  lemma ScanStep(leases: map<Token, Purpose>, queue: seq<Waiter>, n: nat, v: Scan)
    requires DistinctTokens(leases, queue) && n <= |queue| && v == ScanAt(leases, queue, n) && v.index < |v.waiters|
    ensures n < |queue| && ScanNext(v) == ScanAt(leases, queue, n + 1)
  {
    assert v.waiters[v.index] == queue[n];
    ScanDecides(leases, queue, n);
    if Blocked(leases, queue, n) { ScanKeeps(leases, queue, n); } else { ScanGrants(leases, queue, n); }
  }

  lemma ScanEnds(leases: map<Token, Purpose>, queue: seq<Waiter>, n: nat, v: Scan)
    requires n <= |queue| && v == ScanAt(leases, queue, n) && v.index >= |v.waiters|
    ensures v.active == Granted(leases, queue, |queue|) && v.waiters == Kept(leases, queue, |queue|)
  {
  }

  /** From v the loop goes on to next, if there is one, or ends with the result of the pass. */
  ghost predicate Follows(v: Scan, next: Option<Scan>, after: State) {
    && v.index >= 0
    && if v.index < |v.waiters| then next == Some(ScanNext(v))
       else v.active == after.active && v.waiters == after.waiters
  }

  lemma ScanFollows(s: State, k: nat)
    requires DistinctTokens(s.active, s.waiters) && k <= |s.waiters|
    ensures Follows(ScanAt(s.active, s.waiters, k),
                    if k < |s.waiters| then Some(ScanAt(s.active, s.waiters, k + 1)) else None, GrantPass(s))
  {
    var v := ScanAt(s.active, s.waiters, k);
    if v.index < |v.waiters| {
      ScanStep(s.active, s.waiters, k, v);
    } else {
      ScanEnds(s.active, s.waiters, k, v);
    }
  }

  ghost predicate FollowsAt(trace: seq<Scan>, k: nat, after: State)
    requires k < |trace|
  {
    Follows(trace[k], if k + 1 < |trace| then Some(trace[k + 1]) else None, after)
  }

  ghost predicate IsTrace(trace: seq<Scan>, after: State) {
    forall k :: 0 <= k < |trace| ==> FollowsAt(trace, k, after)
  }

  /** The values the loop's variables take from the k-th request on, one entry per request scanned. */
  lemma {:induction false} ScanTrace(s: State, k: nat) returns (trace: seq<Scan>)
    requires DistinctTokens(s.active, s.waiters) && k <= |s.waiters|
    ensures trace != [] && trace[0] == ScanAt(s.active, s.waiters, k) && IsTrace(trace, GrantPass(s))
    decreases |s.waiters| - k
  {
    var v := ScanAt(s.active, s.waiters, k);
    ScanFollows(s, k);
    if k == |s.waiters| {
      trace := [v];
    } else {
      var rest := ScanTrace(s, k + 1);
      trace := [v] + rest;
      TraceFrom(v, rest, GrantPass(s));
    }
  }

  lemma TraceFrom(v: Scan, rest: seq<Scan>, after: State)
    requires rest != [] && IsTrace(rest, after) && Follows(v, Some(rest[0]), after)
    ensures IsTrace([v] + rest, after)
  {
    var trace := [v] + rest;
    forall k | 0 <= k < |trace|
      ensures FollowsAt(trace, k, after)
    {
      if k == 0 {
        assert trace[1] == rest[0];
      } else {
        assert FollowsAt(rest, k - 1, after) && trace[k] == rest[k - 1];
        if k + 1 < |trace| { assert trace[k + 1] == rest[k]; }
      }
    }
  }

  lemma RolesOfAppend(waiters: seq<Waiter>, w: Waiter)
    ensures RolesOf(waiters + [w]) == RolesOf(waiters) + w.purpose.Roles()
  {
    var more := waiters + [w];
    RolesOfPrefix(more, |waiters|);
    assert more[..|waiters| + 1] == more && more[..|waiters|] == waiters;
  }

  // ---------------------------------------------------------------------------------------------
  // The actor as a state machine
  // ---------------------------------------------------------------------------------------------

  /** `arrivals` is history: every request ever queued, in order. It decides nothing. */
  datatype State = State(active: map<Token, Purpose>, waiters: seq<Waiter>, arrivals: seq<Token>)

  datatype Event = Request(token: Token, purpose: Purpose) | Cancel(token: Token) | Release(token: Token)

  const Initial := State(map[], [], [])

  function GrantPass(s: State): State {
    s.(active := Granted(s.active, s.waiters, |s.waiters|), waiters := Kept(s.active, s.waiters, |s.waiters|))
  }

  function Position(waiters: seq<Waiter>, token: Token): (r: Option<nat>)
    ensures r.Some? ==> r.value < |waiters| && waiters[r.value].token == token
    ensures r.None? ==> forall i :: 0 <= i < |waiters| ==> waiters[i].token != token
  {
    if waiters == [] then None
    else if waiters[0].token == token then Some(0)
    else match Position(waiters[1..], token)
         case None => None
         case Some(i) => Some(i + 1)
  }

  /** The queue without its i-th request. */
  function Without(waiters: seq<Waiter>, i: nat): (r: seq<Waiter>)
    requires i < |waiters|
    ensures |r| == |waiters| - 1
    ensures forall k :: 0 <= k < |r| ==> r[k] == waiters[if k < i then k else k + 1]
  {
    waiters[..i] + waiters[i + 1..]
  }

  /** A request carries a token never issued before, as a fresh UUID does. */
  predicate Enabled(s: State, e: Event) {
    e.Request? ==> e.token !in s.arrivals
  }

  /** The state with a new request at the end of the queue. */
  function Queued(s: State, t: Token, p: Purpose): State {
    s.(waiters := s.waiters + [Waiter(t, p)], arrivals := s.arrivals + [t])
  }

  function Step(s: State, e: Event): State {
    match e
    case Request(t, p) => GrantPass(Queued(s, t, p))
    case Cancel(t) =>
      (match Position(s.waiters, t)
       case None => s
       case Some(i) => GrantPass(s.(waiters := Without(s.waiters, i))))
    case Release(t) => if t in s.active then GrantPass(s.(active := s.active - {t})) else s
  }

  // ---------------------------------------------------------------------------------------------
  // Invariants
  // ---------------------------------------------------------------------------------------------

  /** Token u arrived before token t. */
  ghost predicate Before(s: State, u: Token, t: Token) {
    exists i, j :: 0 <= i < j < |s.arrivals| && s.arrivals[i] == u && s.arrivals[j] == t
  }

  ghost predicate Bookkeeping(s: State) {
    && DistinctTokens(s.active, s.waiters)
    && (forall i, j :: 0 <= i < j < |s.arrivals| ==> s.arrivals[i] != s.arrivals[j])
    && (forall t :: t in s.active ==> t in s.arrivals)
    && (forall i :: 0 <= i < |s.waiters| ==> s.waiters[i].token in s.arrivals)
    && (forall i, j :: 0 <= i < j < |s.waiters| ==> Before(s, s.waiters[i].token, s.waiters[j].token))
  }

  /** Mutual exclusion: no role is held by two leases. */
  ghost predicate Exclusive(active: map<Token, Purpose>) {
    forall t, u :: t in active && u in active && t != u ==> active[t].Roles() !! active[u].Roles()
  }

  /** FIFO per role: a lease that shares a role with a waiter arrived before that waiter. */
  ghost predicate NoOvertaking(s: State) {
    forall t, i :: t in s.active && 0 <= i < |s.waiters| && !(s.active[t].Roles() !! s.waiters[i].purpose.Roles())
      ==> Before(s, t, s.waiters[i].token)
  }

  /** Maximality: every waiter is held back by a lease or by an earlier waiter. */
  ghost predicate Maximal(s: State) {
    forall i :: 0 <= i < |s.waiters| ==> Blocked(s.active, s.waiters, i)
  }

  ghost predicate Inv(s: State) {
    Bookkeeping(s) && Exclusive(s.active) && NoOvertaking(s) && Maximal(s)
  }

  /** Holds before a grant pass as well as after it. */
  ghost predicate Safe(s: State) {
    Bookkeeping(s) && Exclusive(s.active) && NoOvertaking(s)
  }

  /** Where the k-th kept request stood in the queue. */
  ghost function KeptIndex(active: map<Token, Purpose>, waiters: seq<Waiter>, n: nat, k: nat): (i: nat)
    requires n <= |waiters| && k < |Kept(active, waiters, n)|
    ensures i < n && Blocked(active, waiters, i) && Kept(active, waiters, n)[k] == waiters[i]
    ensures Kept(active, waiters, i) == Kept(active, waiters, n)[..k]
  {
    var most := Kept(active, waiters, n - 1);
    assert Kept(active, waiters, n) == if Blocked(active, waiters, n - 1) then most + [waiters[n - 1]] else most;
    if k == |most| then
      assert (most + [waiters[n - 1]])[..k] == most;
      n - 1
    else
      assert (most + [waiters[n - 1]])[..k] == most[..k];
      KeptIndex(active, waiters, n - 1, k)
  }

  lemma {:induction false} KeptIndexIncreases(
    active: map<Token, Purpose>, waiters: seq<Waiter>, n: nat, k: nat, l: nat)
    requires n <= |waiters| && k < l < |Kept(active, waiters, n)|
    ensures KeptIndex(active, waiters, n, k) < KeptIndex(active, waiters, n, l)
  {
    if l == |Kept(active, waiters, n - 1)| {
      assert KeptIndex(active, waiters, n, k) == KeptIndex(active, waiters, n - 1, k);
    } else {
      KeptIndexIncreases(active, waiters, n - 1, k, l);
    }
  }

  lemma RolesOfContains(waiters: seq<Waiter>, i: nat, n: nat)
    requires i < n <= |waiters|
    ensures waiters[i].purpose.Roles() <= RolesOf(waiters[..n])
  {
    assert waiters[..n][i] == waiters[i];
  }

  lemma GrantedGrowsOnce(active: map<Token, Purpose>, waiters: seq<Waiter>, n: nat)
    requires n < |waiters| && DistinctTokens(active, waiters)
    ensures RolesInUse(Granted(active, waiters, n)) <= RolesInUse(Granted(active, waiters, n + 1))
  {
    ScanMovesRoles(active, waiters, n);
  }

  lemma {:induction false} GrantedGrows(active: map<Token, Purpose>, waiters: seq<Waiter>, m: nat, n: nat)
    requires m <= n <= |waiters| && DistinctTokens(active, waiters)
    ensures RolesInUse(Granted(active, waiters, m)) <= RolesInUse(Granted(active, waiters, n))
    decreases n - m
  {
    if m < n {
      GrantedGrowsOnce(active, waiters, m);
      GrantedGrows(active, waiters, m + 1, n);
    }
  }

  lemma PassIsExclusive(s: State)
    requires Safe(s)
    ensures Exclusive(GrantPass(s).active)
  {
    var n := |s.waiters|;
    var after := GrantPass(s).active;
    forall t, u | t in after && u in after && t != u
      ensures after[t].Roles() !! after[u].Roles()
    {
      if t in s.active { GrantedKeepsActive(s.active, s.waiters, n, t); }
      if u in s.active { GrantedKeepsActive(s.active, s.waiters, n, u); }
      if t !in s.active {
        var i := GrantedOrigin(s.active, s.waiters, n, t);
        if u !in s.active {
          var j := GrantedOrigin(s.active, s.waiters, n, u);
          if i < j { RolesOfContains(s.waiters, i, j); } else { RolesOfContains(s.waiters, j, i); }
        }
      } else if u !in s.active {
        var j := GrantedOrigin(s.active, s.waiters, n, u);
      }
    }
  }

  lemma PassSeparatesTokens(s: State)
    requires Bookkeeping(s)
    ensures DistinctTokens(GrantPass(s).active, GrantPass(s).waiters)
  {
    var n := |s.waiters|;
    var after := GrantPass(s);
    forall k | 0 <= k < |after.waiters|
      ensures after.waiters[k].token !in after.active
    {
      var i := KeptIndex(s.active, s.waiters, n, k);
      if after.waiters[k].token in after.active {
        var j := GrantedOrigin(s.active, s.waiters, n, after.waiters[k].token);
      }
    }
    forall k, l | 0 <= k < l < |after.waiters|
      ensures after.waiters[k].token != after.waiters[l].token
    {
      KeptIndexIncreases(s.active, s.waiters, n, k, l);
    }
  }

  lemma PassKeepsOrder(s: State, k: nat, l: nat)
    requires Bookkeeping(s) && k < l < |GrantPass(s).waiters|
    ensures Before(GrantPass(s), GrantPass(s).waiters[k].token, GrantPass(s).waiters[l].token)
  {
    var n := |s.waiters|;
    KeptIndexIncreases(s.active, s.waiters, n, k, l);
    var i, j := KeptIndex(s.active, s.waiters, n, k), KeptIndex(s.active, s.waiters, n, l);
    assert Before(s, s.waiters[i].token, s.waiters[j].token);
  }

  lemma PassKeepsBookkeeping(s: State)
    requires Bookkeeping(s)
    ensures Bookkeeping(GrantPass(s))
  {
    var after := GrantPass(s);
    PassSeparatesTokens(s);
    forall k | 0 <= k < |after.waiters|
      ensures after.waiters[k].token in after.arrivals
    {
      var i := KeptIndex(s.active, s.waiters, |s.waiters|, k);
    }
    forall t | t in after.active
      ensures t in after.arrivals
    {
      if t !in s.active { var j := GrantedOrigin(s.active, s.waiters, |s.waiters|, t); }
    }
    forall k, l | 0 <= k < l < |after.waiters|
      ensures Before(after, after.waiters[k].token, after.waiters[l].token)
    {
      PassKeepsOrder(s, k, l);
    }
  }

  lemma GrantDoesNotOvertake(s: State, t: Token, k: nat)
    requires Safe(s) && t in GrantPass(s).active && k < |GrantPass(s).waiters|
    requires !(GrantPass(s).active[t].Roles() !! GrantPass(s).waiters[k].purpose.Roles())
    ensures Before(s, t, GrantPass(s).waiters[k].token)
  {
    var n := |s.waiters|;
    var i := KeptIndex(s.active, s.waiters, n, k);
    if t in s.active {
      GrantedKeepsActive(s.active, s.waiters, n, t);
    } else {
      var j := GrantedOrigin(s.active, s.waiters, n, t);
      GrantedBeforeKept(s.active, s.waiters, i, j);
    }
  }

  /** A kept request that shares a role with a granted one stood behind it. */
  lemma GrantedBeforeKept(active: map<Token, Purpose>, waiters: seq<Waiter>, i: nat, j: nat)
    requires i < |waiters| && j < |waiters| && Blocked(active, waiters, i) && !Blocked(active, waiters, j)
    requires !(waiters[j].purpose.Roles() !! waiters[i].purpose.Roles())
    ensures j < i
  {
    if i < j { RolesOfContains(waiters, i, j); }
  }

  lemma PassDoesNotOvertake(s: State)
    requires Safe(s)
    ensures NoOvertaking(GrantPass(s))
  {
    var after := GrantPass(s);
    forall t, k | t in after.active && 0 <= k < |after.waiters|
                  && !(after.active[t].Roles() !! after.waiters[k].purpose.Roles())
      ensures Before(after, t, after.waiters[k].token)
    {
      GrantDoesNotOvertake(s, t, k);
      assert Before(s, t, after.waiters[k].token);
    }
  }

  lemma PassIsMaximal(s: State)
    requires Safe(s)
    ensures Maximal(GrantPass(s))
  {
    var n := |s.waiters|;
    var after := GrantPass(s);
    forall k | 0 <= k < |after.waiters|
      ensures Blocked(after.active, after.waiters, k)
    {
      var i := KeptIndex(s.active, s.waiters, n, k);
      ScanAccumulates(s.active, s.waiters, i);
      GrantedGrows(s.active, s.waiters, i, n);
    }
  }

  lemma PassEstablishesInv(s: State)
    requires Safe(s)
    ensures Inv(GrantPass(s))
  {
    PassKeepsBookkeeping(s);
    PassIsExclusive(s);
    PassDoesNotOvertake(s);
    PassIsMaximal(s);
  }

  /** Arrival order only grows. */
  lemma BeforeExtends(s: State, t: Token, u: Token, v: Token)
    requires Before(s, u, v)
    ensures Before(s.(arrivals := s.arrivals + [t]), u, v)
  {
    var i, j :| 0 <= i < j < |s.arrivals| && s.arrivals[i] == u && s.arrivals[j] == v;
    var more := s.arrivals + [t];
    assert more[i] == u && more[j] == v;
  }

  lemma QueuedIsLast(s: State, t: Token, p: Purpose, u: Token)
    requires u in s.arrivals
    ensures Before(Queued(s, t, p), u, t)
  {
    var q := Queued(s, t, p);
    var i :| 0 <= i < |s.arrivals| && s.arrivals[i] == u;
    assert q.arrivals[i] == u && q.arrivals[|s.arrivals|] == t;
  }

  lemma QueueingKeepsBookkeeping(s: State, t: Token, p: Purpose)
    requires Bookkeeping(s) && t !in s.arrivals
    ensures Bookkeeping(Queued(s, t, p))
  {
    var q := Queued(s, t, p);
    forall i, j | 0 <= i < j < |q.waiters|
      ensures Before(q, q.waiters[i].token, q.waiters[j].token)
    {
      if j < |s.waiters| {
        BeforeExtends(s, t, s.waiters[i].token, s.waiters[j].token);
      } else {
        QueuedIsLast(s, t, p, s.waiters[i].token);
      }
    }
  }

  lemma QueueingIsSafe(s: State, t: Token, p: Purpose)
    requires Safe(s) && t !in s.arrivals
    ensures Safe(Queued(s, t, p))
  {
    var q := Queued(s, t, p);
    QueueingKeepsBookkeeping(s, t, p);
    forall u, i | u in q.active && 0 <= i < |q.waiters| && !(q.active[u].Roles() !! q.waiters[i].purpose.Roles())
      ensures Before(q, u, q.waiters[i].token)
    {
      if i < |s.waiters| {
        BeforeExtends(s, t, u, s.waiters[i].token);
      } else {
        QueuedIsLast(s, t, p, u);
      }
    }
  }

  lemma RemovingIsSafe(s: State, i: nat)
    requires Safe(s) && i < |s.waiters|
    ensures Safe(s.(waiters := Without(s.waiters, i)))
  {
    var q := s.(waiters := Without(s.waiters, i));
    forall k, l | 0 <= k < l < |q.waiters|
      ensures Before(q, q.waiters[k].token, q.waiters[l].token)
    {
      assert Before(s, q.waiters[k].token, q.waiters[l].token);
    }
    forall u, k | u in q.active && 0 <= k < |q.waiters| && !(q.active[u].Roles() !! q.waiters[k].purpose.Roles())
      ensures Before(q, u, q.waiters[k].token)
    {
      assert Before(s, u, q.waiters[k].token);
    }
  }

  lemma ReleasingIsSafe(s: State, t: Token)
    requires Inv(s) && t in s.active
    ensures Safe(s.(active := s.active - {t}))
  {
    var q := s.(active := s.active - {t});
    forall i, j | 0 <= i < j < |q.waiters|
      ensures Before(q, q.waiters[i].token, q.waiters[j].token)
    {
      assert Before(s, q.waiters[i].token, q.waiters[j].token);
    }
    forall u, i | u in q.active && 0 <= i < |q.waiters| && !(q.active[u].Roles() !! q.waiters[i].purpose.Roles())
      ensures Before(q, u, q.waiters[i].token)
    {
      assert Before(s, u, q.waiters[i].token);
    }
  }

  /** Every actor turn keeps exclusion, FIFO order and maximality. */
  lemma StepKeepsInv(s: State, e: Event)
    requires Inv(s) && Enabled(s, e)
    ensures Inv(Step(s, e))
  {
    match e
    case Request(t, p) =>
      QueueingIsSafe(s, t, p);
      PassEstablishesInv(Queued(s, t, p));
    case Cancel(t) =>
      var found := Position(s.waiters, t);
      if found.Some? {
        var i := found.value;
        RemovingIsSafe(s, i);
        PassEstablishesInv(s.(waiters := Without(s.waiters, i)));
      }
    case Release(t) =>
      if t in s.active {
        ReleasingIsSafe(s, t);
        PassEstablishesInv(s.(active := s.active - {t}));
      }
  }

  // ---------------------------------------------------------------------------------------------
  // Whole runs
  // ---------------------------------------------------------------------------------------------

  /** The state after a list of events; `Runs` says every request in it carried a fresh token. */
  function After(s: State, events: seq<Event>): State
    decreases |events|
  {
    if events == [] then s else After(Step(s, events[0]), events[1..])
  }

  ghost predicate Runs(s: State, events: seq<Event>)
    decreases |events|
  {
    events == [] || (Enabled(s, events[0]) && Runs(Step(s, events[0]), events[1..]))
  }

  lemma QueueNeedsLease(s: State)
    requires Maximal(s) && s.waiters != []
    ensures s.active != map[]
  {
    assert Blocked(s.active, s.waiters, 0);
    assert s.waiters[..0] == [];
    var r :| r in RolesInUse(s.active);
  }

  /** Exclusion, FIFO order and maximality hold in every reachable state; an idle scheduler has no queue. */
  lemma {:induction false} ReachableStatesAreSafe(s: State, events: seq<Event>)
    requires Inv(s) && Runs(s, events)
    ensures Inv(After(s, events))
    ensures After(s, events).active == map[] ==> After(s, events).waiters == []
    decreases |events|
  {
    if events == [] {
      if s.waiters != [] { QueueNeedsLease(s); }
    } else {
      StepKeepsInv(s, events[0]);
      ReachableStatesAreSafe(Step(s, events[0]), events[1..]);
    }
  }

  lemma InitialIsSafe()
    ensures Inv(Initial)
  {
  }

  /** Tokens still queued. */
  ghost function WaitingTokens(s: State): set<Token> {
    set i | 0 <= i < |s.waiters| :: s.waiters[i].token
  }

  /** Requests, active or queued, that arrived before t. */
  ghost function Ahead(s: State, t: Token): set<Token> {
    set u | u in s.active.Keys + WaitingTokens(s) && Before(s, u, t)
  }

  /** The event retires a request that is ahead of t: it releases its lease or cancels its wait. */
  ghost predicate Retires(s: State, e: Event, t: Token) {
    e.token in Ahead(s, t) && match e
                              case Request(_, _) => false
                              case Cancel(u) => u in WaitingTokens(s)
                              case Release(u) => u in s.active
  }

  ghost function Tokens(s: State): set<Token> {
    s.active.Keys + WaitingTokens(s)
  }

  lemma {:induction false} KeptHasBlocked(active: map<Token, Purpose>, waiters: seq<Waiter>, n: nat, i: nat)
    returns (k: nat)
    requires i < n <= |waiters| && Blocked(active, waiters, i)
    ensures k < |Kept(active, waiters, n)| && Kept(active, waiters, n)[k] == waiters[i]
  {
    var most := Kept(active, waiters, n - 1);
    if i == n - 1 {
      k := |most|;
      assert Kept(active, waiters, n) == most + [waiters[i]];
    } else {
      k := KeptHasBlocked(active, waiters, n - 1, i);
      assert most <= Kept(active, waiters, n);
    }
  }

  lemma PassKeepsToken(s: State, t: Token)
    requires DistinctTokens(s.active, s.waiters) && t in Tokens(s)
    ensures t in Tokens(GrantPass(s))
  {
    var n := |s.waiters|;
    if t in s.active {
      GrantedKeepsActive(s.active, s.waiters, n, t);
    } else {
      var i :| 0 <= i < n && s.waiters[i].token == t;
      if Blocked(s.active, s.waiters, i) {
        var k := KeptHasBlocked(s.active, s.waiters, n, i);
      } else {
        GrantedTakesUnblocked(s.active, s.waiters, n, i);
      }
    }
  }

  lemma PassInventsNoToken(s: State, t: Token)
    requires DistinctTokens(s.active, s.waiters)
    ensures t in WaitingTokens(GrantPass(s)) ==> t in WaitingTokens(s)
    ensures t in GrantPass(s).active ==> t in Tokens(s)
  {
    var n, after := |s.waiters|, GrantPass(s);
    if t in WaitingTokens(after) {
      var k :| 0 <= k < |after.waiters| && after.waiters[k].token == t;
      var i := KeptIndex(s.active, s.waiters, n, k);
    }
    if t in after.active && t !in s.active {
      var i := GrantedOrigin(s.active, s.waiters, n, t);
    }
  }

  /** A pass neither loses nor invents a request; what leaves the queue becomes a lease. */
  lemma PassConservesTokens(s: State)
    requires Bookkeeping(s)
    ensures Tokens(GrantPass(s)) == Tokens(s)
    ensures WaitingTokens(GrantPass(s)) <= WaitingTokens(s)
  {
    forall t | t in Tokens(s)
      ensures t in Tokens(GrantPass(s))
    {
      PassKeepsToken(s, t);
    }
    forall t
      ensures t in WaitingTokens(GrantPass(s)) ==> t in WaitingTokens(s)
      ensures t in GrantPass(s).active ==> t in Tokens(s)
    {
      PassInventsNoToken(s, t);
    }
  }

  lemma QueuedTokens(s: State, t: Token, p: Purpose)
    ensures WaitingTokens(Queued(s, t, p)) == WaitingTokens(s) + {t}
  {
    var q := Queued(s, t, p);
    assert q.waiters[|s.waiters|].token == t;
    forall u | u in WaitingTokens(s)
      ensures u in WaitingTokens(q)
    {
      var i :| 0 <= i < |s.waiters| && s.waiters[i].token == u;
      assert q.waiters[i] == s.waiters[i];
    }
  }

  lemma RequestTokens(s: State, t: Token, p: Purpose)
    requires Inv(s) && t !in s.arrivals
    ensures Tokens(Step(s, Request(t, p))) == Tokens(s) + {t}
    ensures WaitingTokens(Step(s, Request(t, p))) <= WaitingTokens(s) + {t}
  {
    QueueingIsSafe(s, t, p);
    QueuedTokens(s, t, p);
    PassConservesTokens(Queued(s, t, p));
  }

  lemma RemovalTokens(s: State, i: nat)
    requires DistinctTokens(s.active, s.waiters) && i < |s.waiters|
    ensures WaitingTokens(s.(waiters := Without(s.waiters, i))) == WaitingTokens(s) - {s.waiters[i].token}
  {
    var q := s.(waiters := Without(s.waiters, i));
    forall t | t in WaitingTokens(s) && t != s.waiters[i].token
      ensures t in WaitingTokens(q)
    {
      var k :| 0 <= k < |s.waiters| && s.waiters[k].token == t;
      assert q.waiters[if k < i then k else k - 1] == s.waiters[k];
    }
    forall t | t in WaitingTokens(q)
      ensures t in WaitingTokens(s) && t != s.waiters[i].token
    {
      var k :| 0 <= k < |q.waiters| && q.waiters[k].token == t;
    }
  }

  lemma CancelTokens(s: State, t: Token)
    requires Inv(s)
    ensures Tokens(Step(s, Cancel(t))) == if t in WaitingTokens(s) then Tokens(s) - {t} else Tokens(s)
    ensures WaitingTokens(Step(s, Cancel(t))) <= WaitingTokens(s) - {t}
  {
    var found := Position(s.waiters, t);
    if found.Some? {
      var i := found.value;
      RemovingIsSafe(s, i);
      RemovalTokens(s, i);
      PassConservesTokens(s.(waiters := Without(s.waiters, i)));
      assert t !in s.active;
    }
  }

  lemma ReleaseTokens(s: State, t: Token)
    requires Inv(s)
    ensures Tokens(Step(s, Release(t))) == if t in s.active then Tokens(s) - {t} else Tokens(s)
    ensures WaitingTokens(Step(s, Release(t))) <= WaitingTokens(s)
  {
    if t in s.active {
      ReleasingIsSafe(s, t);
      PassConservesTokens(s.(active := s.active - {t}));
    }
  }

  /** The effect of one event on the set of live requests. */
  lemma StepTokens(s: State, e: Event)
    requires Inv(s) && Enabled(s, e)
    ensures Tokens(Step(s, e)) == match e
                                  case Request(t, _) => Tokens(s) + {t}
                                  case Cancel(t) => if t in WaitingTokens(s) then Tokens(s) - {t} else Tokens(s)
                                  case Release(t) => if t in s.active then Tokens(s) - {t} else Tokens(s)
    ensures WaitingTokens(Step(s, e)) <= WaitingTokens(s) + (if e.Request? then {e.token} else {})
  {
    match e
    case Request(t, p) => RequestTokens(s, t, p);
    case Cancel(t) => CancelTokens(s, t);
    case Release(t) => ReleaseTokens(s, t);
  }

  lemma BeforeUnchanged(s: State, e: Event, u: Token, t: Token)
    requires Inv(s) && Enabled(s, e) && t in s.arrivals
    ensures Before(Step(s, e), u, t) <==> Before(s, u, t)
  {
    var after := Step(s, e);
    if e.Request? {
      assert after.arrivals == s.arrivals + [e.token];
      if Before(s, u, t) { BeforeExtends(s, e.token, u, t); }
      if Before(after, u, t) {
        var i, j :| 0 <= i < j < |after.arrivals| && after.arrivals[i] == u && after.arrivals[j] == t;
        assert s.arrivals[i] == u && s.arrivals[j] == t;
      }
    } else {
      assert after.arrivals == s.arrivals;
    }
  }

  /** A request arriving now is behind every request that has arrived. */
  lemma NewcomerIsBehind(s: State, u: Token, t: Token)
    requires u !in s.arrivals
    ensures !Before(s, u, t)
  {
  }

  /** When the order of arrival is unchanged, the line is what is left of the tokens. */
  lemma AheadFollowsTokens(s: State, after: State, t: Token, u: Token)
    requires Before(after, u, t) <==> Before(s, u, t)
    ensures u in Ahead(after, t) <==> u in Tokens(after) && Before(s, u, t)
    ensures u in Ahead(s, t) <==> u in Tokens(s) && Before(s, u, t)
  {
  }

  /** No event puts a new request ahead of t; retiring one removes exactly that one. */
  lemma StepAhead(s: State, e: Event, t: Token)
    requires Inv(s) && Enabled(s, e) && t in WaitingTokens(s)
    ensures Ahead(Step(s, e), t) == if Retires(s, e, t) then Ahead(s, t) - {e.token} else Ahead(s, t)
  {
    var after := Step(s, e);
    var expected := if Retires(s, e, t) then Ahead(s, t) - {e.token} else Ahead(s, t);
    assert t in s.arrivals;
    forall u
      ensures u in Ahead(after, t) <==> u in expected
    {
      StepTokens(s, e);
      BeforeUnchanged(s, e, u, t);
      AheadFollowsTokens(s, after, t, u);
      if e.Request? { NewcomerIsBehind(s, e.token, t); }
    }
  }

  /** Whoever holds a waiter back arrived before it. */
  lemma BlockerIsAhead(s: State, i: nat) returns (u: Token)
    requires Inv(s) && i < |s.waiters|
    ensures u in Tokens(s) && Before(s, u, s.waiters[i].token)
  {
    assert Blocked(s.active, s.waiters, i);
    var r :| r in s.waiters[i].purpose.Roles() && r in RolesInUse(s.active) + RolesOf(s.waiters[..i]);
    if r in RolesInUse(s.active) {
      u :| u in s.active && r in s.active[u].Roles();
    } else {
      var j :| 0 <= j < |s.waiters[..i]| && r in s.waiters[..i][j].purpose.Roles();
      u := s.waiters[j].token;
      assert u in WaitingTokens(s);
    }
  }

  /** A waiting request always has someone ahead of it. */
  lemma WaitingHasAhead(s: State, t: Token)
    requires Inv(s) && t in WaitingTokens(s)
    ensures |Ahead(s, t)| >= 1
  {
    var i :| 0 <= i < |s.waiters| && s.waiters[i].token == t;
    var u := BlockerIsAhead(s, i);
    assert u in Ahead(s, t);
  }

  /** How many events of the run retire a request ahead of t. */
  ghost function Retirements(s: State, events: seq<Event>, t: Token): nat
    decreases |events|
  {
    if events == [] then 0
    else (if Retires(s, events[0], t) then 1 else 0) + Retirements(Step(s, events[0]), events[1..], t)
  }

  /** A request that has left the queue never waits again. */
  lemma {:induction false} NeverWaitsAgain(s: State, events: seq<Event>, t: Token)
    requires Inv(s) && Runs(s, events) && t in s.arrivals && t !in WaitingTokens(s)
    ensures t !in WaitingTokens(After(s, events))
    decreases |events|
  {
    if events != [] {
      StepKeepsInv(s, events[0]);
      StepTokens(s, events[0]);
      NeverWaitsAgain(Step(s, events[0]), events[1..], t);
    }
  }

  /**
   * Conservation: while t waits, every retirement ahead of it shortens the line by exactly one, nothing lengthens
   * it, and the line is never empty.
   */
  lemma {:induction false} LineShortens(s: State, events: seq<Event>, t: Token)
    requires Inv(s) && Runs(s, events)
    requires t in WaitingTokens(s) && t in WaitingTokens(After(s, events))
    ensures |Ahead(After(s, events), t)| + Retirements(s, events, t) == |Ahead(s, t)|
    ensures Retirements(s, events, t) < |Ahead(s, t)|
    decreases |events|
  {
    if events == [] {
      WaitingHasAhead(s, t);
    } else {
      var next := Step(s, events[0]);
      StepKeepsInv(s, events[0]);
      StepAhead(s, events[0], t);
      if t !in WaitingTokens(next) {
        NeverWaitsAgain(next, events[1..], t);
      } else {
        LineShortens(next, events[1..], t);
      }
    }
  }

  /** An event that takes a request out of the queue without cancelling it has granted it. */
  lemma LeavesNow(s: State, e: Event, t: Token)
    requires Inv(s) && Enabled(s, e) && e != Cancel(t)
    requires t in WaitingTokens(s) && t !in WaitingTokens(Step(s, e))
    ensures t in Step(s, e).active
  {
    StepTokens(s, e);
    assert t !in s.active;
    assert t in Tokens(Step(s, e));
  }

  lemma AfterFirst(s: State, events: seq<Event>, j: nat)
    requires j < |events|
    ensures After(s, events[..j + 1]) == After(Step(s, events[0]), events[1..][..j])
  {
    assert events[..j + 1][1..] == events[1..][..j] && events[..j + 1][0] == events[0];
  }

  /** Leaving the queue without being cancelled means being granted, at some point of the run. */
  lemma {:induction false} LeavesByGrant(s: State, events: seq<Event>, t: Token) returns (k: nat)
    requires Inv(s) && Runs(s, events) && Cancel(t) !in events
    requires t in WaitingTokens(s) && t !in WaitingTokens(After(s, events))
    ensures k <= |events| && t in After(s, events[..k]).active
    decreases |events|
  {
    var next := Step(s, events[0]);
    var j := 0;
    if t in WaitingTokens(next) {
      StepKeepsInv(s, events[0]);
      j := LeavesByGrant(next, events[1..], t);
    } else {
      LeavesNow(s, events[0], t);
      assert events[1..][..0] == [];
    }
    AfterFirst(s, events, j);
    k := j + 1;
  }

  /**
   * Bounded waiting. A request that is not cancelled holds its lease at some point of any run in which as many
   * requests ahead of it retire as were ahead of it at the start.
   */
  lemma BoundedWaiting(s: State, events: seq<Event>, t: Token) returns (k: nat)
    requires Inv(s) && Runs(s, events) && t in WaitingTokens(s) && Cancel(t) !in events
    requires Retirements(s, events, t) >= |Ahead(s, t)|
    ensures k <= |events| && t in After(s, events[..k]).active
  {
    if t in WaitingTokens(After(s, events)) {
      LineShortens(s, events, t);
    }
    k := LeavesByGrant(s, events, t);
  }

  // ---------------------------------------------------------------------------------------------
  // What the purposes allow
  // ---------------------------------------------------------------------------------------------

  /** The only two purposes that may run together: a transfer in each direction. */
  predicate Together(p: Purpose, q: Purpose) {
    (p.TransferReceiver? && q.TransferSender?) || (p.TransferSender? && q.TransferReceiver?)
  }

  lemma DisjointIffTogether(p: Purpose, q: Purpose)
    ensures p.Roles() !! q.Roles() <==> Together(p, q)
  {
    assert Publisher in p.Roles() || Subscriber in p.Roles();
    assert p.TransferReceiver? ==> Subscriber !in p.Roles();
    assert p.TransferSender? ==> Publisher !in p.Roles();
    assert !p.TransferReceiver? && !p.TransferSender? ==> Publisher in p.Roles() && Subscriber in p.Roles();
    assert Publisher in q.Roles() || Subscriber in q.Roles();
    assert q.TransferReceiver? ==> Subscriber !in q.Roles() && Publisher in q.Roles();
    assert q.TransferSender? ==> Publisher !in q.Roles() && Subscriber in q.Roles();
    assert !q.TransferReceiver? && !q.TransferSender? ==> Publisher in q.Roles() && Subscriber in q.Roles();
  }

  /** A purpose that needs the radio for itself. */
  predicate Alone(p: Purpose) {
    p.Control? || p.Diagnostic? || p.SystemPairing?
  }

  /** What may be active at once, in terms of the purposes alone. */
  ghost predicate AllowedTogether(active: map<Token, Purpose>) {
    && (forall t, u :: t in active && u in active && t != u ==> Together(active[t], active[u]))
    && (forall t :: t in active && Alone(active[t]) ==> active.Keys == {t})
  }

  /** Why a request waits, in terms of the purposes alone. */
  ghost predicate HasReason(s: State, i: nat)
    requires i < |s.waiters|
  {
    || (exists t :: t in s.active && !Together(s.active[t], s.waiters[i].purpose))
    || (exists j :: 0 <= j < i && !Together(s.waiters[j].purpose, s.waiters[i].purpose))
  }

  lemma ExclusiveIsAllowed(active: map<Token, Purpose>)
    requires Exclusive(active)
    ensures AllowedTogether(active)
  {
    forall t, u | t in active && u in active && t != u
      ensures Together(active[t], active[u])
    {
      DisjointIffTogether(active[t], active[u]);
    }
  }

  lemma BlockedHasReason(s: State, i: nat)
    requires i < |s.waiters|
    ensures Blocked(s.active, s.waiters, i) <==> HasReason(s, i)
  {
    var p := s.waiters[i].purpose;
    if Blocked(s.active, s.waiters, i) {
      var r :| r in p.Roles() && r in RolesInUse(s.active) + RolesOf(s.waiters[..i]);
      if r in RolesInUse(s.active) {
        var t :| t in s.active && r in s.active[t].Roles();
        DisjointIffTogether(s.active[t], p);
      } else {
        var j :| 0 <= j < |s.waiters[..i]| && r in s.waiters[..i][j].purpose.Roles();
        DisjointIffTogether(s.waiters[j].purpose, p);
      }
    }
    if t :| t in s.active && !Together(s.active[t], p) {
      DisjointIffTogether(s.active[t], p);
      var r :| r in s.active[t].Roles() && r in p.Roles();
      assert r in RolesInUse(s.active);
    }
    if j :| 0 <= j < i && !Together(s.waiters[j].purpose, p) {
      DisjointIffTogether(s.waiters[j].purpose, p);
      RolesOfContains(s.waiters, j, i);
    }
  }

  /**
   * In every state of every run: control, diagnostics and system pairing run alone, two leases are one receiver and one
   * sender, and every waiting request cannot run together with some lease or with some earlier waiting request.
   */
  lemma PurposesInEveryRun(s: State, events: seq<Event>)
    requires Inv(s) && Runs(s, events)
    ensures AllowedTogether(After(s, events).active)
    ensures forall i :: 0 <= i < |After(s, events).waiters| ==> HasReason(After(s, events), i)
  {
    ReachableStatesAreSafe(s, events);
    var t := After(s, events);
    ExclusiveIsAllowed(t.active);
    forall i | 0 <= i < |t.waiters|
      ensures HasReason(t, i)
    {
      BlockedHasReason(t, i);
    }
  }

  /**
   * With an empty queue a request is granted at once exactly when it can run together with every lease: a sender beside
   * a lone receiver, a receiver beside a lone sender, anything on an idle radio. Otherwise it waits and nothing
   * changes.
   */
  lemma RequestIsDecidedByPurposes(s: State, t: Token, p: Purpose)
    requires Inv(s) && t !in s.arrivals && s.waiters == []
    ensures var after := Step(s, Request(t, p));
            if forall u :: u in s.active ==> Together(s.active[u], p)
            then after.active == s.active[t := p] && after.waiters == []
            else after.active == s.active && after.waiters == [Waiter(t, p)]
  {
    var q := Queued(s, t, p);
    assert q.waiters == [Waiter(t, p)];
    BlockedHasReason(q, 0);
    assert Kept(q.active, q.waiters, 0) == [] && Granted(q.active, q.waiters, 0) == q.active;
  }

  // ---------------------------------------------------------------------------------------------
  // The actor
  // ---------------------------------------------------------------------------------------------

  class Coordinator {
    var activePurposes: map<Token, Purpose>
    var waiters: seq<Waiter>
    ghost var arrivals: seq<Token>

    ghost function View(): State
      reads this
    {
      State(activePurposes, waiters, arrivals)
    }

    constructor ()
      ensures View() == Initial && Inv(View())
    {
      activePurposes, waiters, arrivals := map[], [], [];
      new;
      InitialIsSafe();
    }

    /** Queues a request and grants whatever can run. */
    method Request(token: Token, purpose: Purpose)
      requires Inv(View()) && token !in arrivals
      modifies this
      ensures View() == Step(old(View()), Event.Request(token, purpose)) && Inv(View())
    {
      ghost var s := View();
      StepKeepsInv(s, Event.Request(token, purpose));
      QueueingIsSafe(s, token, purpose);
      waiters := waiters + [Waiter(token, purpose)];
      arrivals := arrivals + [token];
      GrantEligibleWaiters();
    }

    /** Cancels a request that is still waiting; unknown tokens are ignored. */
    method CancelPending(token: Token)
      requires Inv(View())
      modifies this
      ensures View() == Step(old(View()), Cancel(token)) && Inv(View())
    {
      StepKeepsInv(View(), Cancel(token));
      var index := Position(waiters, token);
      if index.Some? {
        var i := index.value;
        RemovingIsSafe(View(), i);
        waiters := Without(waiters, i);
        assert DistinctTokens(activePurposes, waiters);
        GrantEligibleWaiters();
      }
    }

    /** Ends a lease; unknown tokens are ignored. */
    method ReleaseToken(token: Token)
      requires Inv(View())
      modifies this
      ensures View() == Step(old(View()), Release(token)) && Inv(View())
    {
      ghost var s := View();
      StepKeepsInv(s, Release(token));
      if token in activePurposes {
        ReleasingIsSafe(s, token);
        activePurposes := activePurposes - {token};
        GrantEligibleWaiters();
      }
    }

    /** The scan that removes granted requests from the queue while it walks over it. */
    method GrantEligibleWaiters()
      requires DistinctTokens(activePurposes, waiters)
      modifies this`activePurposes, this`waiters
      ensures View() == GrantPass(old(View()))
    {
      ghost var s := View();
      ScanStarts(activePurposes, waiters);
      ghost var trace := ScanTrace(s, 0);
      ghost var after := GrantPass(s);
      ghost var n := 0;
      var reserved: set<Role> := {};
      var index := 0;
      while index < |waiters|
        invariant 0 <= n < |trace| && Scan(activePurposes, waiters, index, reserved) == trace[n]
        decreases |trace| - n
      {
        assert FollowsAt(trace, n, after);
        index, reserved := ScanOne(index, reserved);
        n := n + 1;
      }
      assert FollowsAt(trace, n, after);
    }

    /** One turn of that loop: grant the waiter at the index and remove it, or reserve its roles and go on. */
    method ScanOne(index: int, reserved: set<Role>) returns (nextIndex: int, nextReserved: set<Role>)
      requires 0 <= index < |waiters|
      modifies this`activePurposes, this`waiters
      ensures Scan(activePurposes, waiters, nextIndex, nextReserved)
           == ScanNext(Scan(old(activePurposes), old(waiters), index, reserved))
    {
      var waiter := waiters[index];
      var roles := waiter.purpose.Roles();
      if roles !! RolesInUse(activePurposes) && roles !! reserved {
        activePurposes := activePurposes[waiter.token := waiter.purpose];
        waiters := waiters[..index] + waiters[index + 1..];
        return index, reserved;
      }
      return index + 1, reserved + roles;
    }
  }
}
