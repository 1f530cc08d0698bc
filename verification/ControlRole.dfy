/**
 * Which side opens the Wi-Fi Aware control channel. Each device keeps a role per paired device. A stored hint may be
 * wrong; recovery forgets it, and then the two authenticated peer keys choose complementary roles.
 */
module ControlRole {
  import opened Prelude
  import opened Text

  datatype Role = Publisher | Subscriber

  datatype Direction = InboundPublisher | OutboundSubscriber {
    function LocalRole(): Role {
      if this.InboundPublisher? then Publisher else Subscriber
    }
  }

  datatype Phase = Preferred | Recovering | Established

  datatype Verdict =
    | Accepted(role: Role, roleChanged: bool)
    | RoleMismatch(role: Role, roleChanged: bool)
    | IdentityCollision

  // ---------------------------------------------------------------------------------------------
  // Order on keys
  // ---------------------------------------------------------------------------------------------

  /** Lexicographic order, as Swift compares these ASCII keys. */
  predicate Less(a: string, b: string)
    decreases |a|
  {
    if a == [] then b != []
    else b != [] && (a[0] < b[0] || (a[0] == b[0] && Less(a[1..], b[1..])))
  }

  /** Of two different keys exactly one is the smaller. */
  lemma {:induction false} LessIsStrictTotal(a: string, b: string)
    requires a != b
    ensures Less(a, b) != Less(b, a)
    decreases |a|
  {
    if a != [] && b != [] && a[0] == b[0] {
      assert a == [a[0]] + a[1..] && b == [b[0]] + b[1..];
      LessIsStrictTotal(a[1..], b[1..]);
    }
  }

  /** The role the keys choose: the smaller key subscribes. None when a key is invalid or both are the same. */
  function Canonical(local: string, remote: string): Option<Role> {
    var l, r := NormalizePeerKey(local), NormalizePeerKey(remote);
    if l.None? || r.None? || l == r then None
    else if Less(l.value, r.value) then Some(Subscriber) else Some(Publisher)
  }

  // ---------------------------------------------------------------------------------------------
  // One side
  // ---------------------------------------------------------------------------------------------

  datatype RoleState = RoleState(role: Option<Role>, phase: Phase)

  function FromPersisted(role: Option<Role>): RoleState {
    RoleState(role, Preferred)
  }

  function BeginRecovery(s: RoleState, hasReadyChannel: bool): (RoleState, bool) {
    if hasReadyChannel || s.role.None? then (s, false) else (RoleState(None, Recovering), true)
  }

  /** `canonical` is the role the two authenticated keys choose; it is consulted only when no role is known. */
  function Authenticate(s: RoleState, canonical: Option<Role>, direction: Direction): (RoleState, Verdict) {
    var role := if s.role.Some? then s.role else canonical;
    if role.None? then (s, IdentityCollision)
    else
      var changed := s.role != role;
      if direction.LocalRole() != role.value then (RoleState(role, Preferred), RoleMismatch(role.value, changed))
      else (RoleState(role, Established), Accepted(role.value, changed))
  }

  function ChannelClosed(s: RoleState, hasReadyChannel: bool): RoleState {
    if !hasReadyChannel && s.phase.Established? then s.(phase := Preferred) else s
  }

  /** The role state as the app holds it: a record updated in place. */
  class ControlRoleState {
    var role: Option<Role>
    var phase: Phase

    ghost function View(): RoleState
      reads this
    {
      RoleState(role, phase)
    }

    constructor (persistedRole: Option<Role>)
      ensures View() == FromPersisted(persistedRole)
    {
      role, phase := persistedRole, Preferred;
    }

    method Recover(hasReadyChannel: bool) returns (recovered: bool)
      modifies this
      ensures (View(), recovered) == BeginRecovery(old(View()), hasReadyChannel)
    {
      if hasReadyChannel || role.None? {
        return false;
      }
      role, phase := None, Recovering;
      return true;
    }

    method AuthenticateChannel(local: string, remote: string, direction: Direction) returns (verdict: Verdict)
      modifies this
      ensures (View(), verdict) == Authenticate(old(View()), Canonical(local, remote), direction)
    {
      var previousRole := role;
      if role.None? {
        var canonical := Canonical(local, remote);
        if canonical.None? {
          return IdentityCollision;
        }
        role := canonical;
      }
      var roleChanged := role != previousRole;
      if direction.LocalRole() != role.value {
        phase := Preferred;
        return RoleMismatch(role.value, roleChanged);
      }
      phase := Established;
      return Accepted(role.value, roleChanged);
    }

    method Closed(hasReadyChannel: bool)
      modifies this
      ensures View() == ChannelClosed(old(View()), hasReadyChannel)
    {
      if !hasReadyChannel && phase.Established? {
        phase := Preferred;
      }
    }
  }

  // ---------------------------------------------------------------------------------------------
  // Two sides
  // ---------------------------------------------------------------------------------------------

  /** One device's view of the other: the live state and the hint on disk. */
  datatype Side = Side(state: RoleState, stored: Option<Role>)

  /** What a side may do on its own or on a channel, and the hints the pairing screen writes past the live state. */
  datatype Event =
    | Open(direction: Direction)                 // a channel authenticates with the peer's key
    | Recover(hasReadyChannel: bool)
    | Close(hasReadyChannel: bool)
    | Reload                                     // the role state is rebuilt from the stored hint
    | Hint(role: Role, authoritative: bool)      // the picker's own choice, or a guess for a newly listed device

  function SideStep(side: Side, canonical: Option<Role>, e: Event): Side {
    match e
    case Open(direction) =>
      var (state, verdict) := Authenticate(side.state, canonical, direction);
      var stored := if !verdict.IdentityCollision? && verdict.roleChanged then Some(verdict.role) else side.stored;
      Side(state, stored)
    case Recover(ready) =>
      var (state, recovered) := BeginRecovery(side.state, ready);
      Side(state, if recovered then None else side.stored)
    case Close(ready) => side.(state := ChannelClosed(side.state, ready))
    case Reload => side.(state := FromPersisted(side.stored))
    case Hint(role, authoritative) => if authoritative || side.stored.None? then side.(stored := Some(role)) else side
  }

  /** Role and stored hint are absent or what the keys choose. */
  predicate Settled(side: Side, canonical: Option<Role>) {
    && (side.state.role.Some? ==> side.state.role == canonical)
    && (side.stored.Some? ==> side.stored == canonical)
  }

  /** The role a side will apply to the next channel. */
  function Effective(side: Side, canonical: Option<Role>): Option<Role> {
    if side.state.role.Some? then side.state.role else canonical
  }

  /** What this side answers to a channel of the given direction. */
  predicate Accepts(side: Side, canonical: Option<Role>, direction: Direction) {
    Authenticate(side.state, canonical, direction).1.Accepted?
  }

  /** A hint from the pairing screen, if the event is one, agrees with the keys. */
  predicate Harmless(e: Event, canonical: Option<Role>) {
    e.Hint? ==> Some(e.role) == canonical
  }

  /**
   * Once settled, always settled: no authentication, recovery, close, reload or right hint brings a wrong role back.
   */
  lemma SettledIsStable(side: Side, canonical: Option<Role>, e: Event)
    requires Settled(side, canonical) && Harmless(e, canonical)
    ensures Settled(SideStep(side, canonical, e), canonical)
  {
  }

  /**
   * What one recovery without a ready channel achieves. It settles a side whatever its hints were, unless the live role
   * was already absent while a wrong hint stayed on disk: recovery then does nothing.
   */
  lemma RecoverySettles(side: Side, canonical: Option<Role>)
    ensures Settled(SideStep(side, canonical, Recover(false)), canonical)
       <==> (side.state.role.Some? || side.stored.None? || side.stored == canonical)
  {
  }

  /**
   * The case that fails, for every pair of keys: a device is listed before it is known, the pairing screen then stores
   * a role the keys do not choose, and recovery leaves it there. Loading the hint first and then recovering settles it.
   */
  lemma WrongHintSurvivesRecovery(canonical: Option<Role>, wrong: Role, authoritative: bool)
    requires canonical.Some? && Some(wrong) != canonical
    ensures var listed := Side(FromPersisted(None), None);
            var hinted := SideStep(listed, canonical, Hint(wrong, authoritative));
            && Settled(listed, canonical)
            && !Settled(SideStep(hinted, canonical, Recover(false)), canonical)
            && Settled(SideStep(SideStep(hinted, canonical, Reload), canonical, Recover(false)), canonical)
  {
    var listed := Side(FromPersisted(None), None);
    var hinted := SideStep(listed, canonical, Hint(wrong, authoritative));
    RecoverySettles(hinted, canonical);
    RecoverySettles(SideStep(hinted, canonical, Reload), canonical);
  }

  /** Valid, normalised and different keys. */
  predicate Distinct(a: string, b: string) {
    IsPeerKey(a) && IsPeerKey(b) && a != b
  }

  predicate SmallerKey(a: string, b: string) {
    Less(a, b)
  }

  /** The keys give the two sides opposite roles: the smaller key subscribes, so it opens the channel. */
  lemma CanonicalRolesAreComplementary(a: string, b: string)
    requires Distinct(a, b)
    ensures SmallerKey(a, b) != SmallerKey(b, a)
    ensures Canonical(a, b) == Some(if SmallerKey(a, b) then Subscriber else Publisher)
    ensures Canonical(b, a) == Some(if SmallerKey(b, a) then Subscriber else Publisher)
  {
    NormalizeFixesPeerKeys(a);
    NormalizeFixesPeerKeys(b);
    LessIsStrictTotal(a, b);
  }

  /** When the ends of a channel agree, for whatever roles the keys give, as long as they are complementary. */
  lemma VerdictsOf(a: Side, b: Side, ca: Option<Role>, cb: Option<Role>)
    requires ca.Some? && cb.Some? && ca != cb
    ensures (Accepts(a, ca, OutboundSubscriber) <==> Accepts(b, cb, InboundPublisher))
       <==> Effective(a, ca) != Effective(b, cb)
    ensures (Accepts(b, cb, OutboundSubscriber) <==> Accepts(a, ca, InboundPublisher))
       <==> Effective(a, ca) != Effective(b, cb)
  {
  }

  /**
   * When the ends of a channel agree. The opener sees an outbound channel and the other end an inbound one; both give
   * the same verdict exactly when the roles they apply are complementary.
   */
  lemma SameVerdictIffComplementary(a: Side, b: Side, aKey: string, bKey: string)
    requires Distinct(aKey, bKey)
    ensures var ca, cb := Canonical(aKey, bKey), Canonical(bKey, aKey);
            && ((Accepts(a, ca, OutboundSubscriber) <==> Accepts(b, cb, InboundPublisher))
                <==> Effective(a, ca) != Effective(b, cb))
            && ((Accepts(b, cb, OutboundSubscriber) <==> Accepts(a, ca, InboundPublisher))
                <==> Effective(a, ca) != Effective(b, cb))
  {
    CanonicalRolesAreComplementary(aKey, bKey);
    VerdictsOf(a, b, Canonical(aKey, bKey), Canonical(bKey, aKey));
  }

  /** Wrong hints can split the verdict: both sides told to publish, the opener refuses what the other accepts. */
  lemma EqualHintsDisagree(a: Side, b: Side, ca: Option<Role>, cb: Option<Role>)
    requires a.state.role == Some(Publisher) && b.state.role == Some(Publisher)
    ensures !Accepts(a, ca, OutboundSubscriber) && Accepts(b, cb, InboundPublisher)
  {
  }

  // ---------------------------------------------------------------------------------------------
  // Runs of both sides
  // ---------------------------------------------------------------------------------------------

  /** A step of the pair: who moves, and how. */
  datatype Move = Move(first: bool, event: Event)

  datatype Pair = Pair(a: Side, b: Side)

  function PairStep(p: Pair, ca: Option<Role>, cb: Option<Role>, m: Move): Pair {
    if m.first then p.(a := SideStep(p.a, ca, m.event)) else p.(b := SideStep(p.b, cb, m.event))
  }

  function AfterMoves(p: Pair, ca: Option<Role>, cb: Option<Role>, moves: seq<Move>): Pair
    decreases |moves|
  {
    if moves == [] then p else AfterMoves(PairStep(p, ca, cb, moves[0]), ca, cb, moves[1..])
  }

  /** The verdict a move hands out; None for a move that does not authenticate. */
  function VerdictOf(p: Pair, ca: Option<Role>, cb: Option<Role>, m: Move): Option<bool> {
    if !m.event.Open? then None
    else Some(if m.first then Accepts(p.a, ca, m.event.direction) else Accepts(p.b, cb, m.event.direction))
  }

  function Verdicts(p: Pair, ca: Option<Role>, cb: Option<Role>, moves: seq<Move>): (r: seq<Option<bool>>)
    ensures |r| == |moves|
    decreases |moves|
  {
    if moves == [] then []
    else [VerdictOf(p, ca, cb, moves[0])] + Verdicts(PairStep(p, ca, cb, moves[0]), ca, cb, moves[1..])
  }

  /** The move speaks about a channel that the first device opened. */
  predicate OpenedByFirst(m: Move)
    requires m.event.Open?
  {
    m.first == m.event.direction.OutboundSubscriber?
  }

  /** Every hint written during the run agrees with the keys; in particular a run without hints. */
  ghost predicate HarmlessMoves(moves: seq<Move>, ca: Option<Role>, cb: Option<Role>) {
    forall i :: 0 <= i < |moves| ==> Harmless(moves[i].event, if moves[i].first then ca else cb)
  }

  lemma {:induction false} SettledRuns(p: Pair, ca: Role, cb: Role, moves: seq<Move>)
    requires ca != cb && Settled(p.a, Some(ca)) && Settled(p.b, Some(cb)) && HarmlessMoves(moves, Some(ca), Some(cb))
    ensures var q := AfterMoves(p, Some(ca), Some(cb), moves); Settled(q.a, Some(ca)) && Settled(q.b, Some(cb))
    ensures forall i :: 0 <= i < |moves| && moves[i].event.Open? ==>
              Verdicts(p, Some(ca), Some(cb), moves)[i] == Some(ca.Subscriber? <==> OpenedByFirst(moves[i]))
    decreases |moves|
  {
    if moves != [] {
      var m := moves[0];
      if m.first { SettledIsStable(p.a, Some(ca), m.event); } else { SettledIsStable(p.b, Some(cb), m.event); }
      assert m.event.Open? ==> VerdictOf(p, Some(ca), Some(cb), m) == Some(ca.Subscriber? <==> OpenedByFirst(m));
      SettledRuns(PairStep(p, Some(ca), Some(cb), m), ca, cb, moves[1..]);
    }
  }

  /** Every channel of the run is judged by one rule: accept it exactly when the smaller key opened it. */
  ghost predicate JudgedByKeys(verdicts: seq<Option<bool>>, moves: seq<Move>, aKey: string, bKey: string) {
    |verdicts| == |moves|
    && forall i :: 0 <= i < |moves| && moves[i].event.Open? ==>
         verdicts[i] == Some(if OpenedByFirst(moves[i]) then SmallerKey(aKey, bKey) else SmallerKey(bKey, aKey))
  }

  /**
   * Convergence. From any settled pair, in every interleaving of authentications, recoveries, closes, reloads and hints
   * that agree with the keys, both ends always judge a channel alike, and both sides stay settled.
   */
  lemma RunsConverge(p: Pair, moves: seq<Move>, aKey: string, bKey: string)
    requires Distinct(aKey, bKey)
    requires Settled(p.a, Canonical(aKey, bKey)) && Settled(p.b, Canonical(bKey, aKey))
    requires HarmlessMoves(moves, Canonical(aKey, bKey), Canonical(bKey, aKey))
    ensures var ca, cb := Canonical(aKey, bKey), Canonical(bKey, aKey);
            && JudgedByKeys(Verdicts(p, ca, cb, moves), moves, aKey, bKey)
            && Settled(AfterMoves(p, ca, cb, moves).a, ca) && Settled(AfterMoves(p, ca, cb, moves).b, cb)
  {
    CanonicalRolesAreComplementary(aKey, bKey);
    SettledRuns(p, Canonical(aKey, bKey).value, Canonical(bKey, aKey).value, moves);
  }
}
