/**
 * The Wi-Fi Aware provider's tables: which peer key each paired device has proved, which control channels are ready,
 * which devices are in conflict, and the routes published from all that. Every actor turn is one atomic step.
 */
module PeerRoutes {
  import opened Prelude
  import opened Text
  import opened ControlRole

  type DeviceId = nat
  type ChannelId = nat

  datatype Identity = Identity(peerKey: string, displayName: string)

  datatype Entry = Entry(channelID: ChannelId, deviceID: DeviceId, direction: Direction, identity: Identity)

  type Channels = map<ChannelId, Entry>

  type Registry = map<DeviceId, Channels>

  /** What does not change during a session. */
  datatype Config = Config(localKey: string, automatic: bool, sanitize: string -> Option<string>)

  /** The actor's dictionaries. The routes it last published are kept beside them, in `Session`. */
  datatype State = State(
    active: bool,
    leased: bool,
    paired: set<DeviceId>,
    identities: map<DeviceId, Identity>,
    conflicted: set<DeviceId>,
    channels: Registry,
    pending: map<ChannelId, DeviceId>,
    roles: map<DeviceId, RoleState>,
    stored: map<DeviceId, Role>
  )

  // ---------------------------------------------------------------------------------------------
  // The channel registry
  // ---------------------------------------------------------------------------------------------

  function EntriesOf(channels: Registry, d: DeviceId): Channels {
    if d in channels then channels[d] else map[]
  }

  /** The smallest channel id of a non-empty set. */
  function Least(s: set<ChannelId>): (m: ChannelId)
    requires s != {}
    ensures IsLeast(m, s)
  {
    LeastExists(s);
    assert forall a, b :: IsLeast(a, s) && IsLeast(b, s) ==> a == b;
    var m :| IsLeast(m, s);
    m
  }

  predicate IsLeast(m: ChannelId, s: set<ChannelId>) {
    m in s && forall x <- s :: m <= x
  }

  lemma {:induction false} LeastExists(s: set<ChannelId>)
    requires s != {}
    ensures exists m :: IsLeast(m, s)
    decreases |s|
  {
    var a :| a in s;
    var rest := s - {a};
    if rest == {} {
      assert s == {a} && IsLeast(a, s);
    } else {
      LeastExists(rest);
      var b :| IsLeast(b, rest);
      assert forall x <- s :: x == a || x in rest;
      assert IsLeast(if a <= b then a else b, s);
    }
  }

  /** The ready channel used for a device: the preferred direction first, then the smallest id. */
  function Select(entries: Channels, preferred: Option<Role>): (r: Option<Entry>)
    ensures r.Some? <==> entries != map[]
    ensures r.Some? ==> exists c :: c in entries && r.value == entries[c]
  {
    var favoured := set c | c in entries && preferred == Some(entries[c].direction.LocalRole());
    if favoured != {} then Some(entries[Least(favoured)])
    else if entries.Keys != {} then Some(entries[Least(entries.Keys)])
    else
      assert entries == map[];
      None
  }

  /** Adds a channel, taking out the one it replaces: another channel of the same direction. */
  function Register(channels: Registry, e: Entry): (Registry, Option<Entry>) {
    var entries := EntriesOf(channels, e.deviceID);
    var same := set c | c in entries && entries[c].direction == e.direction && c != e.channelID;
    if same == {} then (channels[e.deviceID := entries[e.channelID := e]], None)
    else (channels[e.deviceID := (entries - {Least(same)})[e.channelID := e]], Some(entries[Least(same)]))
  }

  /** Takes out one channel if it is there. */
  function Remove(channels: Registry, d: DeviceId, c: ChannelId): Registry {
    if d !in channels || c !in channels[d] then channels
    else if channels[d] - {c} == map[] then channels - {d}
    else channels[d := channels[d] - {c}]
  }

  // ---------------------------------------------------------------------------------------------
  // Routes
  // ---------------------------------------------------------------------------------------------

  function Selected(s: State, d: DeviceId): Option<Entry> {
    Select(EntriesOf(s.channels, d), if d in s.roles then s.roles[d].role else None)
  }

  function Eligible(s: State): set<DeviceId> {
    if s.active then set d | d in s.paired && d !in s.conflicted && Selected(s, d).Some? else {}
  }

  /** The eligible devices whose ready channel carries key k. */
  function Claims(s: State, k: string): set<DeviceId> {
    set d | d in Eligible(s) && Selected(s, d).value.identity.peerKey == k
  }

  lemma SingletonMembers(s: set<DeviceId>)
    requires |s| == 1
    ensures s != {} && forall x, y :: x in s && y in s ==> x == y
  {
    var x :| x in s;
    assert |s - {x}| == 0;
    assert forall y :: y in s ==> y == x || y in s - {x};
  }

  function TheOnly(s: set<DeviceId>): (d: DeviceId)
    requires |s| == 1
    ensures d in s
  {
    SingletonMembers(s);
    var d :| d in s;
    d
  }

  /** Keys claimed by exactly one eligible device. */
  function RoutesOf(s: State): map<string, DeviceId> {
    map k | k in (set d | d in Eligible(s) :: Selected(s, d).value.identity.peerKey) && |Claims(s, k)| == 1
      :: TheOnly(Claims(s, k))
  }

  // ---------------------------------------------------------------------------------------------
  // Identity binding
  // ---------------------------------------------------------------------------------------------

  function Normalized(config: Config, candidate: Identity): Option<Identity> {
    var key, name := NormalizePeerKey(candidate.peerKey), config.sanitize(candidate.displayName);
    if key.None? || key.value == config.localKey || name.None? then None else Some(Identity(key.value, name.value))
  }

  function Duplicates(s: State, d: DeviceId, key: string): set<DeviceId> {
    set c | c in s.identities && c != d && c in s.paired && s.identities[c].peerKey == key
  }

  /** Binds a normalised identity to a device, or records why it cannot be trusted. */
  function Bind(s: State, d: DeviceId, identity: Option<Identity>): (r: (State, bool))
    ensures r.1 ==> d in r.0.identities
  {
    if !s.active || d !in s.paired || identity.None? || d in s.conflicted then (s, false)
    else
      var id := identity.value;
      if d in s.identities && s.identities[d].peerKey != id.peerKey then
        (s.(identities := s.identities - {d}, conflicted := s.conflicted + {d}), false)
      else
        var duplicates := Duplicates(s, d, id.peerKey);
        if duplicates != {} then
          (s.(identities := s.identities[d := id], conflicted := s.conflicted + {d} + duplicates), false)
        else (s.(identities := s.identities[d := id]), true)
  }

  /** Makes the bound identity follow the selected channel. */
  function Reconcile(s: State, d: DeviceId): (r: State)
    ensures r == s.(identities := r.identities)
  {
    Following(s, d, Selected(s, d))
  }

  function Following(s: State, d: DeviceId, selected: Option<Entry>): (r: State)
    ensures r == s.(identities := r.identities)
  {
    match selected
    case Some(e) => s.(identities := s.identities[d := e.identity])
    case None => if d in s.conflicted then s else s.(identities := s.identities - {d})
  }

  function RejectPending(s: State, d: DeviceId, c: ChannelId): State {
    Reconcile(s.(pending := s.pending - {c}), d)
  }

  // ---------------------------------------------------------------------------------------------
  // Steps
  // ---------------------------------------------------------------------------------------------

  datatype Event =
    | OpenPending(device: DeviceId, channel: ChannelId, current: bool)
    | RegisterReady(device: DeviceId, channel: ChannelId, direction: Direction, identity: Identity, current: bool)
    | ExpirePending(device: DeviceId, channel: ChannelId, current: bool)
    | ChannelEnds(device: DeviceId, channel: ChannelId, current: bool)
    | RecoverRole(device: DeviceId, current: bool)
    | ReplaceDevices(devices: set<DeviceId>)
    | StartSession
    | StopSession

  function RoleFor(s: State, d: DeviceId): RoleState {
    if d in s.roles then s.roles[d] else FromPersisted(if d in s.stored then Some(s.stored[d]) else None)
  }

  /** The automatic mode's verdict on a channel, with its effect on role and stored hint. */
  function JudgeRole(s: State, automatic: bool, canonical: Option<Role>, d: DeviceId, direction: Direction)
    : (r: (State, bool))
    ensures r.0 == s.(roles := r.0.roles, stored := r.0.stored)
  {
    if !automatic then (s, true)
    else
      var (state, verdict) := Authenticate(RoleFor(s, d), canonical, direction);
      var stored := if !verdict.IdentityCollision? && verdict.roleChanged then s.stored[d := verdict.role]
          else s.stored;
      (s.(roles := s.roles[d := state], stored := stored), verdict.Accepted?)
  }

  /** From a bound identity to a ready channel, or back out. */
  function Admit(s: State, automatic: bool, canonical: Option<Role>, d: DeviceId, c: ChannelId, direction: Direction)
    : (State, bool)
    requires d in s.identities
  {
    var (judged, accepted) := JudgeRole(s, automatic, canonical, d, direction);
    if !accepted then (RejectPending(judged, d, c), false)
    else
      var registered := Register(s.channels, Entry(c, d, direction, s.identities[d])).0;
      (judged.(channels := registered, pending := judged.pending - {c}), true)
  }

  function RegisterChannel(config: Config, s: State, d: DeviceId, c: ChannelId, direction: Direction,
                           identity: Identity, current: bool): (State, bool)
  {
    var entries := EntriesOf(s.channels, d);
    if c in entries then
      (s, entries[c].direction == direction && entries[c].identity.peerKey == identity.peerKey && d !in s.conflicted)
    else if !current || d !in s.paired || c !in s.pending || s.pending[c] != d then (s, false)
    else
      var (bound, ok) := Bind(s, d, Normalized(config, identity));
      if !ok then (RejectPending(bound, d, c), false)
      else Admit(bound, config.automatic, Canonical(config.localKey, bound.identities[d].peerKey), d, c, direction)
  }

  function CloseChannel(config: Config, s: State, d: DeviceId, c: ChannelId, current: bool): State {
    var dropped := s.(pending := s.pending - {c});
    if c !in EntriesOf(s.channels, d) then dropped
    else
      var removed := dropped.(channels := Remove(s.channels, d, c));
      var roles := if config.automatic && current && d in s.roles
                   then s.roles[d := ChannelClosed(s.roles[d], EntriesOf(removed.channels, d) != map[])] else s.roles;
      Reconcile(removed.(roles := roles), d)
  }

  function RecoverDevice(s: State, d: DeviceId, current: bool): State {
    if !current || d !in s.paired || EntriesOf(s.channels, d) != map[] || d !in s.roles then s
    else
      var (state, recovered) := BeginRecovery(s.roles[d], false);
      if recovered then s.(roles := s.roles[d := state], stored := s.stored - {d}) else s
  }

  /** Starting without a lease or without devices forgets identities and conflicts; otherwise roles are filled in. */
  function StartNetworking(s: State): State {
    if !s.active || !s.leased || s.paired == {} then s.(identities := map[], conflicted := {})
    else s.(roles := map d | d in s.paired :: RoleFor(s, d))
  }

  function Replace(s: State, devices: set<DeviceId>): State {
    if devices == s.paired then s
    else
      var stored := map d | d in s.stored && d in devices :: s.stored[d];
      var kept := s.(paired := devices, stored := stored);
      var stopped := kept.(
        roles := map d | d in devices :: RoleFor(kept, d),
        channels := map[], pending := map[], identities := map[],
        conflicted := s.conflicted * devices);
      if s.active then StartNetworking(stopped) else stopped
  }

  function Step(config: Config, s: State, e: Event): State {
    match e
    case OpenPending(d, c, current) =>
      if current && s.active && d in s.paired then s.(pending := s.pending[c := d]) else s
    case RegisterReady(d, c, direction, identity, current) =>
      RegisterChannel(config, s, d, c, direction, identity, current && s.active).0
    case ExpirePending(d, c, current) =>
      if current && c !in EntriesOf(s.channels, d) then s.(pending := s.pending - {c}) else s
    case ChannelEnds(d, c, current) => CloseChannel(config, s, d, c, current)
    case RecoverRole(d, current) => RecoverDevice(s, d, current)
    case ReplaceDevices(devices) => Replace(s, devices)
    case StartSession => if s.active then s else StartNetworking(s.(active := true, leased := true))
    case StopSession =>
      if !s.active then s
      else State(false, false, {}, map[], {}, map[], map[], map[], s.stored)
  }

  /** The steps that end by recomputing the routes; the others leave the published routes as they are. */
  predicate Publishes(s: State, e: Event) {
    match e
    case RegisterReady(d, c, _, _, current) =>
      c !in EntriesOf(s.channels, d) && current && s.active && d in s.paired && c in s.pending && s.pending[c] == d
    case ChannelEnds(d, c, _) => c in EntriesOf(s.channels, d)
    case ReplaceDevices(devices) => devices != s.paired
    case StartSession => !s.active && s.paired == {}
    case StopSession => s.active
    case _ => false
  }

  datatype Session = Session(tables: State, published: map<string, DeviceId>)

  function SessionStep(config: Config, session: Session, e: Event): Session {
    var after := Step(config, session.tables, e);
    Session(after, if Publishes(session.tables, e) then RoutesOf(after) else session.published)
  }

  // ---------------------------------------------------------------------------------------------
  // Invariant
  // ---------------------------------------------------------------------------------------------

  /** Entries filed under their own ids, and at most one per direction. */
  ghost predicate WellFiled(entries: Channels, d: DeviceId) {
    && (forall c :: c in entries ==> entries[c].channelID == c && entries[c].deviceID == d)
    && (forall c, e :: c in entries && e in entries && entries[c].direction == entries[e].direction ==> c == e)
  }

  ghost predicate RegistryOk(s: State) {
    forall d :: d in s.channels ==> d in s.paired && s.channels[d] != map[] && WellFiled(s.channels[d], d)
  }

  /** Every ready channel of a trusted device carries the key bound to the device. */
  ghost predicate ChannelsCarryBoundKey(s: State) {
    forall d, c :: d in s.channels && d !in s.conflicted && c in s.channels[d] ==>
      d in s.identities && s.channels[d][c].identity.peerKey == s.identities[d].peerKey
  }

  /** Two trusted devices never hold the same key. */
  ghost predicate TrustedKeysDistinct(s: State) {
    forall d, e :: d in s.identities && e in s.identities && d != e && d !in s.conflicted && e !in s.conflicted ==>
      s.identities[d].peerKey != s.identities[e].peerKey
  }

  ghost predicate Tables(s: State) {
    && s.identities.Keys <= s.paired && s.conflicted <= s.paired
    && RegistryOk(s) && ChannelsCarryBoundKey(s) && TrustedKeysDistinct(s)
    && (!s.active ==> s.channels == map[])
  }

  ghost predicate Inv(session: Session) {
    Tables(session.tables) && session.published == RoutesOf(session.tables)
  }

  // ---------------------------------------------------------------------------------------------
  // Published routes follow the tables
  // ---------------------------------------------------------------------------------------------

  /** Routes depend only on the selected channels of trusted paired devices. */
  lemma RoutesDependOnSelection(s: State, t: State)
    requires s.active == t.active && s.paired == t.paired && s.conflicted == t.conflicted
    requires forall d :: d in s.paired ==> Selected(s, d) == Selected(t, d)
    ensures RoutesOf(s) == RoutesOf(t)
  {
    assert Eligible(s) == Eligible(t);
    forall k
      ensures Claims(s, k) == Claims(t, k)
    {
    }
    assert (set d | d in Eligible(s) :: Selected(s, d).value.identity.peerKey)
        == (set d | d in Eligible(t) :: Selected(t, d).value.identity.peerKey);
  }

  /** A trusted paired device with a ready channel is selected with its bound key. */
  lemma SelectedCarriesBoundKey(s: State, d: DeviceId)
    requires Tables(s) && d in Eligible(s)
    ensures d in s.channels && d in s.identities
    ensures Selected(s, d).value.identity.peerKey == s.identities[d].peerKey
  {
    var c :| c in EntriesOf(s.channels, d) && Selected(s, d).value == EntriesOf(s.channels, d)[c];
    assert s.channels[d][c].identity.peerKey == s.identities[d].peerKey;
  }

  /** A trusted device's key is claimed by that device alone. */
  lemma OneClaim(s: State, d: DeviceId)
    requires Tables(s) && d in Eligible(s) && d in s.identities
    ensures Claims(s, s.identities[d].peerKey) == {d}
    ensures s.identities[d].peerKey in RoutesOf(s) && RoutesOf(s)[s.identities[d].peerKey] == d
  {
    var k := s.identities[d].peerKey;
    SelectedCarriesBoundKey(s, d);
    forall e | e in Claims(s, k)
      ensures e == d
    {
      SelectedCarriesBoundKey(s, e);
    }
    assert Claims(s, k) == {d};
  }

  /** Key k leads to device d precisely when d is a trusted paired device with a ready channel, bound to k. */
  ghost predicate Exact(routes: map<string, DeviceId>, s: State) {
    && (forall k :: k in routes ==>
          routes[k] in Eligible(s) && routes[k] in s.identities && s.identities[routes[k]].peerKey == k)
    && (forall d :: d in Eligible(s) ==>
          d in s.identities && s.identities[d].peerKey in routes && routes[s.identities[d].peerKey] == d)
  }

  /** The one-claimant rule never hides a trusted device: the routes are exact. */
  lemma RoutesAreExact(s: State)
    requires Tables(s)
    ensures Exact(RoutesOf(s), s)
  {
    var routes := RoutesOf(s);
    forall k | k in routes
      ensures routes[k] in Eligible(s) && routes[k] in s.identities && s.identities[routes[k]].peerKey == k
    {
      assert routes[k] in Claims(s, k);
      SelectedCarriesBoundKey(s, routes[k]);
    }
    forall d | d in Eligible(s)
      ensures d in s.identities && s.identities[d].peerKey in routes && routes[s.identities[d].peerKey] == d
    {
      SelectedCarriesBoundKey(s, d);
      OneClaim(s, d);
    }
  }

  // ---------------------------------------------------------------------------------------------
  // Every step keeps the tables
  // ---------------------------------------------------------------------------------------------

  lemma ConflictKeepsTables(s: State, identities: map<DeviceId, Identity>, conflicted: set<DeviceId>, d: DeviceId)
    requires Tables(s) && s.conflicted + {d} <= conflicted <= s.paired
    requires identities.Keys <= s.paired
    requires forall e :: e != d ==>
               (e in identities <==> e in s.identities) && (e in identities ==> identities[e] == s.identities[e])
    ensures Tables(s.(identities := identities, conflicted := conflicted))
  {
  }

  lemma NewIdentityKeepsTables(s: State, d: DeviceId, id: Identity)
    requires Tables(s) && s.active && d in s.paired && d !in s.conflicted && Duplicates(s, d, id.peerKey) == {}
    requires d in s.identities ==> s.identities[d].peerKey == id.peerKey
    ensures Tables(s.(identities := s.identities[d := id]))
  {
    forall e | e in s.identities && e != d && e in s.paired
      ensures s.identities[e].peerKey != id.peerKey
    {
      assert e !in Duplicates(s, d, id.peerKey);
    }
  }

  lemma BindKeepsTables(s: State, d: DeviceId, identity: Option<Identity>)
    requires Tables(s)
    ensures Tables(Bind(s, d, identity).0)
    ensures Bind(s, d, identity).1 ==>
              identity.Some? && Bind(s, d, identity).0 == s.(identities := s.identities[d := identity.value])
              && d !in s.conflicted && s.active && d in s.paired
  {
    if s.active && d in s.paired && identity.Some? && d !in s.conflicted {
      var id := identity.value;
      var duplicates := Duplicates(s, d, id.peerKey);
      if d in s.identities && s.identities[d].peerKey != id.peerKey {
        ConflictKeepsTables(s, s.identities - {d}, s.conflicted + {d}, d);
      } else if duplicates != {} {
        ConflictKeepsTables(s, s.identities[d := id], s.conflicted + {d} + duplicates, d);
      } else {
        NewIdentityKeepsTables(s, d, id);
      }
    }
  }

  lemma FollowingKeepsTables(s: State, d: DeviceId, selected: Option<Entry>)
    requires Tables(s)
    requires selected.Some? ==> d in s.channels && exists c :: c in s.channels[d] && selected.value == s.channels[d][c]
    requires selected.None? ==> d !in s.channels
    ensures Tables(Following(s, d, selected))
  {
  }

  lemma ReconcileKeepsTables(s: State, d: DeviceId)
    requires Tables(s)
    ensures Tables(Reconcile(s, d))
  {
    FollowingKeepsTables(s, d, Selected(s, d));
  }

  lemma RejectKeepsTables(s: State, d: DeviceId, c: ChannelId)
    requires Tables(s)
    ensures Tables(RejectPending(s, d, c))
  {
    TablesIgnore(s, s.(pending := s.pending - {c}));
    ReconcileKeepsTables(s.(pending := s.pending - {c}), d);
  }

  /** Registering keeps one channel per direction; the other direction's channel stays. */
  lemma RegisterWellFiled(channels: Registry, e: Entry)
    requires e.deviceID in channels ==> WellFiled(channels[e.deviceID], e.deviceID)
    ensures var after := Register(channels, e).0;
            && e.deviceID in after && WellFiled(after[e.deviceID], e.deviceID) && e.channelID in after[e.deviceID]
            && after[e.deviceID][e.channelID] == e
            && (forall c :: c in after[e.deviceID] && c != e.channelID ==>
                  e.deviceID in channels && c in channels[e.deviceID]
                      && after[e.deviceID][c] == channels[e.deviceID][c])
            && (forall d :: d != e.deviceID ==>
                  (d in after <==> d in channels) && (d in after ==> after[d] == channels[d]))
  {
    var entries := EntriesOf(channels, e.deviceID);
    var same := set c | c in entries && entries[c].direction == e.direction && c != e.channelID;
    var after := Register(channels, e).0[e.deviceID];
    if same != {} {
      assert forall x :: x in same ==> entries[x].direction == entries[Least(same)].direction;
      assert same == {Least(same)};
    }
    forall c | c in after && c != e.channelID
      ensures c in entries && after[c] == entries[c] && after[c].direction != e.direction
    {
      assert c !in same;
    }
  }

  lemma RegisterKeepsTables(s: State, d: DeviceId, c: ChannelId, direction: Direction)
    requires Tables(s) && d in s.identities && d !in s.conflicted && s.active
    ensures Tables(s.(channels := Register(s.channels, Entry(c, d, direction, s.identities[d])).0))
  {
    RegisterWellFiled(s.channels, Entry(c, d, direction, s.identities[d]));
    var t := s.(channels := Register(s.channels, Entry(c, d, direction, s.identities[d])).0);
    forall a | a in t.channels
      ensures a in t.paired && t.channels[a] != map[] && WellFiled(t.channels[a], a)
    {
      if a == d { assert c in t.channels[d]; }
    }
    forall a, b | a in t.channels && a !in t.conflicted && b in t.channels[a]
      ensures a in t.identities && t.channels[a][b].identity.peerKey == t.identities[a].peerKey
    {
      if a == d && b != c { assert s.channels[d][b].identity.peerKey == s.identities[d].peerKey; }
    }
  }

  lemma TablesIgnore(s: State, t: State)
    requires Tables(s)
    requires t.active == s.active && t.paired == s.paired && t.identities == s.identities
    requires t.conflicted == s.conflicted && t.channels == s.channels
    ensures Tables(t)
  {
  }

  lemma AdmitKeepsTables(s: State, automatic: bool, canonical: Option<Role>, d: DeviceId, c: ChannelId,
                         direction: Direction)
    requires Tables(s) && d in s.identities && d !in s.conflicted && s.active
    ensures Tables(Admit(s, automatic, canonical, d, c, direction).0)
  {
    var (judged, accepted) := JudgeRole(s, automatic, canonical, d, direction);
    TablesIgnore(s, judged);
    if !accepted {
      RejectKeepsTables(judged, d, c);
    } else {
      RegisterKeepsTables(judged, d, c, direction);
      var t := judged.(channels := Register(s.channels, Entry(c, d, direction, s.identities[d])).0);
      TablesIgnore(t, t.(pending := judged.pending - {c}));
    }
  }

  lemma RegisterChannelKeepsTables(config: Config, s: State, d: DeviceId, c: ChannelId, direction: Direction,
                                   identity: Identity, current: bool)
    requires Tables(s)
    ensures Tables(RegisterChannel(config, s, d, c, direction, identity, current).0)
  {
    if c !in EntriesOf(s.channels, d) && current && d in s.paired && c in s.pending && s.pending[c] == d {
      var (bound, ok) := Bind(s, d, Normalized(config, identity));
      BindKeepsTables(s, d, Normalized(config, identity));
      if !ok {
        RejectKeepsTables(bound, d, c);
      } else {
        AdmitKeepsTables(bound, config.automatic, Canonical(config.localKey, bound.identities[d].peerKey), d, c,
            direction);
      }
    }
  }

  lemma RemoveKeepsTables(s: State, d: DeviceId, c: ChannelId)
    requires Tables(s) && d in s.channels && c in s.channels[d]
    ensures Tables(s.(channels := Remove(s.channels, d, c)))
  {
    var t := s.(channels := Remove(s.channels, d, c));
    forall a, b | a in t.channels && a !in t.conflicted && b in t.channels[a]
      ensures a in t.identities && t.channels[a][b].identity.peerKey == t.identities[a].peerKey
    {
      assert a in s.channels && b in s.channels[a] && t.channels[a][b] == s.channels[a][b];
    }
  }

  lemma CloseKeepsTables(config: Config, s: State, d: DeviceId, c: ChannelId, current: bool)
    requires Tables(s)
    ensures Tables(CloseChannel(config, s, d, c, current))
  {
    if c in EntriesOf(s.channels, d) {
      RemoveKeepsTables(s, d, c);
      var removed := s.(channels := Remove(s.channels, d, c));
      var roles := if config.automatic && current && d in s.roles
                   then s.roles[d := ChannelClosed(s.roles[d], EntriesOf(removed.channels, d) != map[])] else s.roles;
      TablesIgnore(removed, removed.(pending := s.pending - {c}, roles := roles));
      ReconcileKeepsTables(removed.(pending := s.pending - {c}, roles := roles), d);
    }
  }

  /** Every step keeps the tables consistent. */
  lemma StepKeepsTables(config: Config, s: State, e: Event)
    requires Tables(s)
    ensures Tables(Step(config, s, e))
  {
    match e
    case OpenPending(d, c, current) => TablesIgnore(s, Step(config, s, e));
    case RegisterReady(d, c, direction, identity, current) =>
      RegisterChannelKeepsTables(config, s, d, c, direction, identity, current && s.active);
    case ExpirePending(d, c, current) => TablesIgnore(s, Step(config, s, e));
    case ChannelEnds(d, c, current) => CloseKeepsTables(config, s, d, c, current);
    case RecoverRole(d, current) => TablesIgnore(s, Step(config, s, e));
    case ReplaceDevices(devices) => ReplaceKeepsTables(config, s, devices);
    case StartSession => StartKeepsTables(config, s);
    case StopSession => StopKeepsTables(config, s);
  }

  lemma ReplaceKeepsTables(config: Config, s: State, devices: set<DeviceId>)
    requires Tables(s)
    ensures Tables(Step(config, s, ReplaceDevices(devices)))
  {
  }

  lemma StartKeepsTables(config: Config, s: State)
    requires Tables(s)
    ensures Tables(Step(config, s, StartSession))
  {
  }

  lemma StopKeepsTables(config: Config, s: State)
    requires Tables(s)
    ensures Tables(Step(config, s, StopSession))
  {
  }

  /** Steps that do not publish do not change what should be published. */
  lemma QuietStepsKeepRoutes(config: Config, s: State, e: Event)
    requires Tables(s) && !Publishes(s, e)
    ensures RoutesOf(Step(config, s, e)) == RoutesOf(s)
  {
    var t := Step(config, s, e);
    if e.StartSession? && !s.active {
      NoChannelsNoRoutes(s);
      NoChannelsNoRoutes(t);
    } else {
      RoutesDependOnSelection(s, t);
    }
  }

  lemma NoChannelsNoRoutes(s: State)
    requires s.channels == map[]
    ensures RoutesOf(s) == map[]
  {
    assert Eligible(s) == {};
  }

  // ---------------------------------------------------------------------------------------------
  // Runs
  // ---------------------------------------------------------------------------------------------

  function After(config: Config, session: Session, events: seq<Event>): Session
    decreases |events|
  {
    if events == [] then session else After(config, SessionStep(config, session, events[0]), events[1..])
  }

  lemma SessionStepKeepsInv(config: Config, session: Session, e: Event)
    requires Inv(session)
    ensures Inv(SessionStep(config, session, e))
  {
    StepKeepsTables(config, session.tables, e);
    if !Publishes(session.tables, e) {
      QuietStepsKeepRoutes(config, session.tables, e);
    }
  }

  /** Distinct keys lead to distinct devices. */
  ghost predicate Injective(routes: map<string, DeviceId>) {
    forall k, l :: k in routes && l in routes && routes[k] == routes[l] ==> k == l
  }

  /** What a reader of the routes may rely on. */
  ghost predicate Safe(session: Session) {
    && TrustedKeysDistinct(session.tables) && ChannelsCarryBoundKey(session.tables) && RegistryOk(session.tables)
    && Exact(session.published, session.tables) && Injective(session.published)
  }

  lemma InvIsSafe(session: Session)
    requires Inv(session)
    ensures Safe(session)
  {
    RoutesAreExact(session.tables);
  }

  /** Identity and route safety over every run of register, reject, close, recover, replace, start and stop. */
  lemma {:induction false} EveryRunIsSafe(config: Config, session: Session, events: seq<Event>)
    requires Inv(session)
    ensures Inv(After(config, session, events)) && Safe(After(config, session, events))
    decreases |events|
  {
    if events == [] {
      InvIsSafe(session);
    } else {
      SessionStepKeepsInv(config, session, events[0]);
      EveryRunIsSafe(config, SessionStep(config, session, events[0]), events[1..]);
    }
  }

  function InitialSession(stored: map<DeviceId, Role>): Session {
    Session(State(false, false, {}, map[], {}, map[], map[], map[], stored), map[])
  }

  lemma InitialSessionIsSafe(stored: map<DeviceId, Role>)
    ensures Inv(InitialSession(stored))
  {
    NoChannelsNoRoutes(InitialSession(stored).tables);
  }

  /** A close for a channel that is not registered changes nothing but the pending table. */
  lemma LateCloseIsHarmless(config: Config, session: Session, d: DeviceId, c: ChannelId, current: bool)
    requires c !in EntriesOf(session.tables.channels, d)
    ensures SessionStep(config, session, ChannelEnds(d, c, current))
         == session.(tables := session.tables.(pending := session.tables.pending - {c}))
  {
  }

  lemma RegisterRetires(channels: Registry, e: Entry, replaced: ChannelId)
    requires e.deviceID in channels && WellFiled(channels[e.deviceID], e.deviceID) && replaced != e.channelID
    requires replaced in channels[e.deviceID] && channels[e.deviceID][replaced].direction == e.direction
    ensures Register(channels, e).1 == Some(channels[e.deviceID][replaced])
    ensures replaced !in EntriesOf(Register(channels, e).0, e.deviceID)
  {
    var entries := EntriesOf(channels, e.deviceID);
    var same := set c | c in entries && entries[c].direction == e.direction && c != e.channelID;
    assert replaced in same && Least(same) in same;
    assert Least(same) == replaced;
  }

  lemma AdmitRetires(s: State, automatic: bool, canonical: Option<Role>, d: DeviceId, c: ChannelId,
                     direction: Direction, replaced: ChannelId)
    requires Tables(s) && d in s.identities && Admit(s, automatic, canonical, d, c, direction).1
    requires d in s.channels && replaced in s.channels[d] && s.channels[d][replaced].direction == direction
         && replaced != c
    ensures var after := Admit(s, automatic, canonical, d, c, direction).0;
            && c in EntriesOf(after.channels, d) && replaced !in EntriesOf(after.channels, d)
            && after.pending == s.pending - {c}
  {
    RegisterWellFiled(s.channels, Entry(c, d, direction, s.identities[d]));
    RegisterRetires(s.channels, Entry(c, d, direction, s.identities[d]), replaced);
  }

  /** The channel is neither ready for the device nor waiting to become so. */
  predicate Gone(s: State, d: DeviceId, c: ChannelId) {
    c !in EntriesOf(s.channels, d) && c !in s.pending
  }

  /** Registering files nothing but the channel itself. */
  lemma RegisterKeepsGone(channels: Registry, e: Entry, d: DeviceId, c: ChannelId)
    requires c !in EntriesOf(channels, d) && e.channelID != c
    ensures c !in EntriesOf(Register(channels, e).0, d)
  {
  }

  /** The registry grows by the given channel, at most. */
  predicate Files(
    before: Registry, after: Registry, d: DeviceId, c: ChannelId, direction: Direction, identity: Identity)
  {
    after == before || after == Register(before, Entry(c, d, direction, identity)).0
  }

  lemma AdmitFiles(s: State, automatic: bool, canonical: Option<Role>, d: DeviceId, c: ChannelId, direction: Direction)
    requires d in s.identities
    ensures var after := Admit(s, automatic, canonical, d, c, direction).0;
            Files(s.channels, after.channels, d, c, direction, s.identities[d]) && after.pending == s.pending - {c}
  {
  }

  lemma BindKeepsChannels(s: State, d: DeviceId, identity: Option<Identity>)
    ensures Bind(s, d, identity).0.channels == s.channels && Bind(s, d, identity).0.pending == s.pending
  {
  }

  lemma RejectKeepsChannels(s: State, d: DeviceId, c: ChannelId)
    ensures RejectPending(s, d, c).channels == s.channels && RejectPending(s, d, c).pending == s.pending - {c}
  {
  }

  lemma ReadyFiles(config: Config, s: State, d: DeviceId, c: ChannelId, direction: Direction, candidate: Identity,
                   current: bool)
    returns (identity: Identity)
    ensures var after := RegisterChannel(config, s, d, c, direction, candidate, current).0;
            Files(s.channels, after.channels, d, c, direction, identity) && after.pending.Keys <= s.pending.Keys
  {
    identity := candidate;
    if c !in EntriesOf(s.channels, d) && current && d in s.paired && c in s.pending && s.pending[c] == d {
      var (bound, ok) := Bind(s, d, Normalized(config, candidate));
      BindKeepsChannels(s, d, Normalized(config, candidate));
      RejectKeepsChannels(bound, d, c);
      if ok {
        identity := bound.identities[d];
        AdmitFiles(bound, config.automatic, Canonical(config.localKey, identity.peerKey), d, c, direction);
      }
    }
  }

  /** Only a pending channel is ever filed. */
  lemma ReadyFilesPending(config: Config, s: State, d: DeviceId, c: ChannelId, direction: Direction,
                          candidate: Identity, current: bool)
    requires c !in s.pending
    ensures RegisterChannel(config, s, d, c, direction, candidate, current).0 == s
  {
  }

  lemma RemoveKeepsGone(channels: Registry, e: DeviceId, other: ChannelId, d: DeviceId, c: ChannelId)
    requires c !in EntriesOf(channels, d)
    ensures c !in EntriesOf(Remove(channels, e, other), d)
  {
  }

  lemma CloseFiles(config: Config, s: State, d: DeviceId, c: ChannelId, current: bool)
    ensures var after := CloseChannel(config, s, d, c, current);
            && after.pending == s.pending - {c}
            && after.channels == (if c in EntriesOf(s.channels, d) then Remove(s.channels, d, c) else s.channels)
            && after.active == s.active && after.paired == s.paired && after.conflicted == s.conflicted
  {
  }

  lemma CloseKeepsGone(config: Config, s: State, e: DeviceId, other: ChannelId, current: bool, d: DeviceId,
                       c: ChannelId)
    requires Gone(s, d, c)
    ensures Gone(CloseChannel(config, s, e, other, current), d, c)
  {
    CloseFiles(config, s, e, other, current);
    RemoveKeepsGone(s.channels, e, other, d, c);
  }

  lemma ReplaceClears(s: State, devices: set<DeviceId>)
    ensures Replace(s, devices) == s || (Replace(s, devices).channels == map[] && Replace(s, devices).pending == map[])
  {
  }

  /** A channel that is gone stays gone as long as nobody opens it again. */
  lemma StepKeepsGone(config: Config, s: State, e: Event, d: DeviceId, c: ChannelId)
    requires Gone(s, d, c) && !(e.OpenPending? && e.channel == c)
    ensures Gone(Step(config, s, e), d, c)
  {
    match e
    case RegisterReady(device, channel, direction, candidate, current) =>
      if channel in s.pending {
        var identity := ReadyFiles(config, s, device, channel, direction, candidate, current && s.active);
        RegisterKeepsGone(s.channels, Entry(channel, device, direction, identity), d, c);
      } else {
        ReadyFilesPending(config, s, device, channel, direction, candidate, current && s.active);
      }
    case ChannelEnds(device, channel, current) => CloseKeepsGone(config, s, device, channel, current, d, c);
    case ReplaceDevices(devices) => ReplaceClears(s, devices);
    case _ =>
  }

  /** No event of the run opens the channel again. */
  predicate NeverReopened(events: seq<Event>, c: ChannelId) {
    forall i :: 0 <= i < |events| ==> !(events[i].OpenPending? && events[i].channel == c)
  }

  lemma {:induction false} RunKeepsGone(config: Config, session: Session, events: seq<Event>, d: DeviceId, c: ChannelId)
    requires Gone(session.tables, d, c) && NeverReopened(events, c)
    ensures Gone(After(config, session, events).tables, d, c)
    decreases |events|
  {
    if events != [] {
      StepKeepsGone(config, session.tables, events[0], d, c);
      RunKeepsGone(config, SessionStep(config, session, events[0]), events[1..], d, c);
    }
  }

  /** What registering a second channel of a direction does to the first. */
  lemma RegisterReplaces(config: Config, s: State, d: DeviceId, c: ChannelId, direction: Direction, identity: Identity,
                         replaced: ChannelId)
    requires Tables(s) && s.active && c !in EntriesOf(s.channels, d)
    requires RegisterChannel(config, s, d, c, direction, identity, true).1
    requires replaced in EntriesOf(s.channels, d) && EntriesOf(s.channels, d)[replaced].direction == direction
    requires replaced !in s.pending
    ensures var after := RegisterChannel(config, s, d, c, direction, identity, true).0;
            c in EntriesOf(after.channels, d) && Gone(after, d, replaced)
  {
    var (bound, ok) := Bind(s, d, Normalized(config, identity));
    BindKeepsTables(s, d, Normalized(config, identity));
    BindKeepsChannels(s, d, Normalized(config, identity));
    AdmitRetires(bound, config.automatic, Canonical(config.localKey, bound.identities[d].peerKey), d, c, direction,
        replaced);
  }

  /**
   * Replacement. A channel that becomes ready takes out the device's other channel of its direction, and however much
   * later the replaced channel's own close arrives, it changes nothing at all: not the replacement, not the identities,
   * not the published routes.
   */
  lemma LateCloseNeverTouchesReplacement(
    config: Config, session: Session, d: DeviceId, c: ChannelId, direction: Direction, identity: Identity,
    replaced: ChannelId, between: seq<Event>, current: bool)
    requires Inv(session) && session.tables.active && c !in EntriesOf(session.tables.channels, d)
    requires RegisterChannel(config, session.tables, d, c, direction, identity, true).1
    requires replaced in EntriesOf(session.tables.channels, d) && replaced !in session.tables.pending
    requires EntriesOf(session.tables.channels, d)[replaced].direction == direction && NeverReopened(between, replaced)
    ensures var registered := SessionStep(config, session, RegisterReady(d, c, direction, identity, true));
            var later := After(config, registered, between);
            && c in EntriesOf(registered.tables.channels, d) && replaced !in EntriesOf(registered.tables.channels, d)
            && SessionStep(config, later, ChannelEnds(d, replaced, current)) == later
  {
    RegisterReplaces(config, session.tables, d, c, direction, identity, replaced);
    var registered := SessionStep(config, session, RegisterReady(d, c, direction, identity, true));
    RunKeepsGone(config, registered, between, d, replaced);
    var later := After(config, registered, between);
    LateCloseIsHarmless(config, later, d, replaced, current);
    assert later.tables.pending - {replaced} == later.tables.pending;
  }

  // ---------------------------------------------------------------------------------------------
  // What a close and a registration do
  // ---------------------------------------------------------------------------------------------

  /** Every ready channel other than c of d is the same in both registries. */
  ghost predicate SameButFor(before: Registry, after: Registry, d: DeviceId, c: ChannelId) {
    forall e: DeviceId, x: ChannelId :: e != d || x != c ==>
      && (x in EntriesOf(after, e) <==> x in EntriesOf(before, e))
      && (x in EntriesOf(after, e) ==> EntriesOf(after, e)[x] == EntriesOf(before, e)[x])
  }

  lemma RemoveIsExact(channels: Registry, d: DeviceId, c: ChannelId)
    ensures c !in EntriesOf(Remove(channels, d, c), d) && SameButFor(channels, Remove(channels, d, c), d, c)
  {
  }

  /** A device without a ready channel is not eligible; a trusted paired one with a channel is. */
  lemma EligibleIff(s: State, d: DeviceId)
    ensures d in Eligible(s)
       <==> s.active && d in s.paired && d !in s.conflicted && EntriesOf(s.channels, d) != map[]
  {
  }

  lemma BoundKeyOf(s: State, d: DeviceId, c: ChannelId)
    requires Tables(s) && d !in s.conflicted && c in EntriesOf(s.channels, d)
    ensures d in s.identities && EntriesOf(s.channels, d)[c].identity.peerKey == s.identities[d].peerKey
    ensures s.active && d in s.paired
  {
    assert d in s.channels && s.channels[d][c] == EntriesOf(s.channels, d)[c];
  }

  /** The device has a ready channel besides c. */
  predicate HasOther(s: State, d: DeviceId, c: ChannelId) {
    exists x :: x in EntriesOf(s.channels, d) && x != c
  }

  /** What the routes must be once c is gone and nothing else has changed. */
  lemma RoutesWithout(s: State, t: State, routes: map<string, DeviceId>, d: DeviceId, c: ChannelId)
    requires Tables(s) && Tables(t) && Exact(routes, t) && t.conflicted == s.conflicted
    requires c !in EntriesOf(t.channels, d) && SameButFor(s.channels, t.channels, d, c)
    ensures !HasOther(s, d, c) ==> forall k :: k in routes ==> routes[k] != d
    ensures HasOther(s, d, c) && d !in s.conflicted ==>
              d in s.identities && s.identities[d].peerKey in routes && routes[s.identities[d].peerKey] == d
  {
    EligibleIff(t, d);
    if !HasOther(s, d, c) {
      assert forall x :: x !in EntriesOf(t.channels, d);
      assert EntriesOf(t.channels, d) == map[];
    }
    if x :| x in EntriesOf(s.channels, d) && x != c {
      assert x in EntriesOf(t.channels, d);
      if d !in s.conflicted {
        BoundKeyOf(s, d, x);
        BoundKeyOf(t, d, x);
      }
    }
  }

  lemma CloseTables(config: Config, s: State, d: DeviceId, c: ChannelId, current: bool)
    requires c in EntriesOf(s.channels, d)
    ensures var t := CloseChannel(config, s, d, c, current);
            && c !in EntriesOf(t.channels, d) && SameButFor(s.channels, t.channels, d, c)
                  && t.conflicted == s.conflicted
  {
    CloseFiles(config, s, d, c, current);
    RemoveIsExact(s.channels, d, c);
  }

  /**
   * A close takes out exactly its channel and leaves every other channel of every device as it was. If it was the
   * device's last channel, no published key leads to the device any more; otherwise a trusted device keeps its key and
   * its route.
   */
  lemma CloseTakesOutExactly(config: Config, session: Session, d: DeviceId, c: ChannelId, current: bool)
    requires Inv(session) && c in EntriesOf(session.tables.channels, d)
    ensures var s := session.tables; var after := SessionStep(config, session, ChannelEnds(d, c, current));
            && c !in EntriesOf(after.tables.channels, d) && SameButFor(s.channels, after.tables.channels, d, c)
            && (!HasOther(s, d, c) ==> forall k :: k in after.published ==> after.published[k] != d)
            && (HasOther(s, d, c) && d !in s.conflicted ==>
                  d in s.identities && s.identities[d].peerKey in after.published
                  && after.published[s.identities[d].peerKey] == d)
  {
    var after := SessionStep(config, session, ChannelEnds(d, c, current));
    CloseTables(config, session.tables, d, c, current);
    SessionStepKeepsInv(config, session, ChannelEnds(d, c, current));
    RoutesAreExact(after.tables);
    RoutesWithout(session.tables, after.tables, after.published, d, c);
  }

  /** The role in force for a device: the live or stored one, else the one the keys choose. */
  function RoleInForce(config: Config, s: State, d: DeviceId, key: string): Option<Role> {
    var known := if d in s.roles then s.roles[d].role else if d in s.stored then Some(s.stored[d]) else None;
    if known.Some? then known else Canonical(config.localKey, key)
  }

  /** Another paired device is bound to the key. */
  predicate Claimed(s: State, d: DeviceId, key: string) {
    exists e :: e in s.identities && e != d && e in s.paired && s.identities[e].peerKey == key
  }

  /** A channel that has been announced for a paired, trusted device of a running session. */
  predicate Announced(s: State, d: DeviceId, c: ChannelId) {
    && s.active && d in s.paired && d !in s.conflicted
    && c in s.pending && s.pending[c] == d && c !in EntriesOf(s.channels, d)
  }

  /** A usable identity: a key that is not our own and a name that can be shown. */
  predicate Presents(config: Config, candidate: Identity, key: string, name: string) {
    && NormalizePeerKey(candidate.peerKey) == Some(key) && key != config.localKey
    && config.sanitize(candidate.displayName) == Some(name)
  }

  lemma ClaimedIsDuplicates(s: State, d: DeviceId, key: string)
    ensures Claimed(s, d, key) <==> Duplicates(s, d, key) != {}
  {
    if e :| e in s.identities && e != d && e in s.paired && s.identities[e].peerKey == key {
      assert e in Duplicates(s, d, key);
    }
  }

  lemma BindDecides(config: Config, s: State, d: DeviceId, c: ChannelId, candidate: Identity, key: string, name: string)
    requires Announced(s, d, c) && Presents(config, candidate, key, name)
    ensures var (bound, ok) := Bind(s, d, Normalized(config, candidate));
            && (ok <==> (d in s.identities ==> s.identities[d].peerKey == key) && !Claimed(s, d, key))
            && (ok ==> bound == s.(identities := s.identities[d := Identity(key, name)]))
            && (!ok ==> d in bound.conflicted && s.conflicted <= bound.conflicted)
            && ((d in s.identities ==> s.identities[d].peerKey == key) ==>
                  forall e :: e in s.identities && e != d && e in s.paired && s.identities[e].peerKey == key ==>
                    e in bound.conflicted)
  {
    ClaimedIsDuplicates(s, d, key);
    forall e | e in s.identities && e != d && e in s.paired && s.identities[e].peerKey == key
      ensures e in Duplicates(s, d, key)
    {
    }
  }

  lemma JudgeDecides(config: Config, s: State, key: string, d: DeviceId, direction: Direction)
    ensures JudgeRole(s, config.automatic, Canonical(config.localKey, key), d, direction).1
       <==> (config.automatic ==> RoleInForce(config, s, d, key) == Some(direction.LocalRole()))
  {
  }

  lemma RegisterFiles(channels: Registry, e: Entry)
    ensures e.channelID in EntriesOf(Register(channels, e).0, e.deviceID)
    ensures EntriesOf(Register(channels, e).0, e.deviceID)[e.channelID] == e
  {
  }

  lemma AdmitAccepts(config: Config, s: State, key: string, d: DeviceId, c: ChannelId, direction: Direction)
    requires d in s.identities && JudgeRole(s, config.automatic, Canonical(config.localKey, key), d, direction).1
    ensures var (after, ok) := Admit(s, config.automatic, Canonical(config.localKey, key), d, c, direction);
            && ok && after == s.(channels := Register(s.channels, Entry(c, d, direction, s.identities[d])).0,
                                 pending := s.pending - {c}, roles := after.roles, stored := after.stored)
  {
  }

  lemma AdmitRefuses(config: Config, s: State, key: string, d: DeviceId, c: ChannelId, direction: Direction)
    requires d in s.identities && !JudgeRole(s, config.automatic, Canonical(config.localKey, key), d, direction).1
    ensures var (after, ok) := Admit(s, config.automatic, Canonical(config.localKey, key), d, c, direction);
            !ok && after.channels == s.channels && after.pending == s.pending - {c}
  {
    RejectKeepsChannels(JudgeRole(s, config.automatic, Canonical(config.localKey, key), d, direction).0, d, c);
  }

  /** When an announced channel is accepted, in terms of what the tables hold. */
  predicate Acceptable(config: Config, s: State, d: DeviceId, direction: Direction, key: string) {
    && (d in s.identities ==> s.identities[d].peerKey == key) && !Claimed(s, d, key)
    && (config.automatic ==> RoleInForce(config, s, d, key) == Some(direction.LocalRole()))
  }

  lemma AnnouncedTables(config: Config, s: State, d: DeviceId, c: ChannelId, direction: Direction, candidate: Identity,
                        key: string, name: string)
    requires Announced(s, d, c) && Presents(config, candidate, key, name)
    ensures var (after, ok) := RegisterChannel(config, s, d, c, direction, candidate, true);
            && (ok <==> Acceptable(config, s, d, direction, key)) && c !in after.pending
            && (!ok ==> after.channels == s.channels)
            && (ok ==> after.active && after.paired == s.paired && after.conflicted == s.conflicted
                       && d in after.identities && after.identities[d] == Identity(key, name)
                       && c in EntriesOf(after.channels, d)
                       && EntriesOf(after.channels, d)[c] == Entry(c, d, direction, Identity(key, name)))
  {
    var (bound, ok) := Bind(s, d, Normalized(config, candidate));
    BindDecides(config, s, d, c, candidate, key, name);
    BindKeepsChannels(s, d, Normalized(config, candidate));
    RejectKeepsChannels(bound, d, c);
    if ok {
      JudgeDecides(config, bound, key, d, direction);
      assert RoleInForce(config, bound, d, key) == RoleInForce(config, s, d, key);
      RegisterFiles(bound.channels, Entry(c, d, direction, Identity(key, name)));
      if JudgeRole(bound, config.automatic, Canonical(config.localKey, key), d, direction).1 {
        AdmitAccepts(config, bound, key, d, c, direction);
      } else {
        AdmitRefuses(config, bound, key, d, c, direction);
      }
    }
  }

  lemma TrustedChannelHasRoute(t: State, routes: map<string, DeviceId>, d: DeviceId, c: ChannelId)
    requires Tables(t) && Exact(routes, t) && d !in t.conflicted && c in EntriesOf(t.channels, d)
    ensures d in t.identities && t.identities[d].peerKey in routes && routes[t.identities[d].peerKey] == d
  {
    BoundKeyOf(t, d, c);
    EligibleIff(t, d);
  }

  /**
   * An announced channel is accepted if and only if its key is free, its device has not shown another key, and in
   * automatic mode its direction fits the role in force. It is then filed with that identity, and its key leads to it;
   * otherwise no channel changes.
   */
  lemma AnnouncedChannelIsAcceptedIff(config: Config, session: Session, d: DeviceId, c: ChannelId, direction: Direction,
                                      candidate: Identity, key: string, name: string)
    requires Inv(session) && Announced(session.tables, d, c) && Presents(config, candidate, key, name)
    ensures var ok := RegisterChannel(config, session.tables, d, c, direction, candidate, true).1;
            var after := SessionStep(config, session, RegisterReady(d, c, direction, candidate, true));
            && (ok <==> Acceptable(config, session.tables, d, direction, key)) && c !in after.tables.pending
            && (ok ==> c in EntriesOf(after.tables.channels, d)
                       && EntriesOf(after.tables.channels, d)[c] == Entry(c, d, direction, Identity(key, name))
                       && key in after.published && after.published[key] == d)
            && (!ok ==> after.tables.channels == session.tables.channels)
  {
    AnnouncedTables(config, session.tables, d, c, direction, candidate, key, name);
    var after := SessionStep(config, session, RegisterReady(d, c, direction, candidate, true));
    SessionStepKeepsInv(config, session, RegisterReady(d, c, direction, candidate, true));
    RoutesAreExact(after.tables);
    if RegisterChannel(config, session.tables, d, c, direction, candidate, true).1 {
      TrustedChannelHasRoute(after.tables, after.published, d, c);
    }
  }

  /** A key that two devices show makes all of them untrusted: none of them is published. */
  lemma ClashUntrustsAll(config: Config, session: Session, d: DeviceId, c: ChannelId, direction: Direction,
                         candidate: Identity, key: string, name: string, e: DeviceId)
    requires Inv(session) && Announced(session.tables, d, c) && Presents(config, candidate, key, name)
    requires d in session.tables.identities ==> session.tables.identities[d].peerKey == key
    requires e in session.tables.identities && e != d && e in session.tables.paired
    requires session.tables.identities[e].peerKey == key
    ensures var after := SessionStep(config, session, RegisterReady(d, c, direction, candidate, true));
            && d in after.tables.conflicted && e in after.tables.conflicted
            && forall k :: k in after.published ==> after.published[k] != d && after.published[k] != e
  {
    var s := session.tables;
    BindDecides(config, s, d, c, candidate, key, name);
    var bound := Bind(s, d, Normalized(config, candidate)).0;
    assert RejectPending(bound, d, c).conflicted == bound.conflicted;
    SessionStepKeepsInv(config, session, RegisterReady(d, c, direction, candidate, true));
    var t := SessionStep(config, session, RegisterReady(d, c, direction, candidate, true)).tables;
    RoutesAreExact(t);
    EligibleIff(t, d);
    EligibleIff(t, e);
  }

  /** The channel used for a device: one of the preferred direction if there is any, and of those the smallest id. */
  lemma SelectPrefers(entries: Channels, preferred: Option<Role>, c: ChannelId)
    requires c in entries && (forall x :: x in entries ==> entries[x].channelID == x)
    ensures var r := Select(entries, preferred);
            && r.Some? && r.value.channelID in entries && entries[r.value.channelID] == r.value
            && (preferred == Some(entries[c].direction.LocalRole()) ==>
                  preferred == Some(r.value.direction.LocalRole()) && r.value.channelID <= c)
            && (preferred != Some(r.value.direction.LocalRole()) ==> r.value.channelID <= c)
  {
    var favoured := set x | x in entries && preferred == Some(entries[x].direction.LocalRole());
    assert preferred == Some(entries[c].direction.LocalRole()) ==> c in favoured;
    if favoured != {} {
      assert IsLeast(Least(favoured), favoured);
    } else {
      assert IsLeast(Least(entries.Keys), entries.Keys);
    }
  }

  // ---------------------------------------------------------------------------------------------
  // Grouping claims
  // ---------------------------------------------------------------------------------------------

  function KeyOf(s: State, d: DeviceId): string
    requires d in Eligible(s)
  {
    Selected(s, d).value.identity.peerKey
  }

  /** The claim table once every device outside rest has been entered. */
  ghost predicate Grouped(s: State, grouped: map<string, set<DeviceId>>, rest: set<DeviceId>) {
    && (forall k <- grouped :: grouped[k] == Claims(s, k) - rest && grouped[k] != {})
    && (forall d <- Eligible(s) :: d !in rest ==> KeyOf(s, d) in grouped)
  }

  /** Entering one device, whether it is eligible or not. */
  lemma GroupStep(s: State, grouped: map<string, set<DeviceId>>, rest: set<DeviceId>, d: DeviceId)
    requires Grouped(s, grouped, rest) && d in rest
    ensures d !in Eligible(s) ==> Grouped(s, grouped, rest - {d})
    ensures d in Eligible(s) ==>
              var k := KeyOf(s, d);
              Grouped(s, grouped[k := (if k in grouped then grouped[k] else {}) + {d}], rest - {d})
  {
    if d in Eligible(s) {
      var key := KeyOf(s, d);
      var next := grouped[key := (if key in grouped then grouped[key] else {}) + {d}];
      assert d in Claims(s, key);
      if key !in grouped {
        assert forall e <- Claims(s, key) :: e in rest;
      }
      forall k <- next
        ensures next[k] == Claims(s, k) - (rest - {d}) && next[k] != {}
      {
        if k != key { assert d !in Claims(s, k); }
      }
    } else {
      forall k <- grouped
        ensures grouped[k] == Claims(s, k) - (rest - {d})
      {
        assert d !in Claims(s, k);
      }
    }
  }

  lemma RoutesOfAt(s: State, k: string)
    ensures k in RoutesOf(s) <==> |Claims(s, k)| == 1
    ensures k in RoutesOf(s) ==> RoutesOf(s)[k] == TheOnly(Claims(s, k))
  {
    if |Claims(s, k)| == 1 {
      var d := TheOnly(Claims(s, k));
      assert Selected(s, d).value.identity.peerKey == k;
    }
  }

  /** A full claim table lists the claimants of every key that has any. */
  lemma GroupedAt(s: State, grouped: map<string, set<DeviceId>>, k: string)
    requires Grouped(s, grouped, {})
    ensures Claims(s, k) == if k in grouped then grouped[k] else {}
  {
    assert Claims(s, k) - {} == Claims(s, k);
    assert forall d <- Claims(s, k) :: KeyOf(s, d) == k && KeyOf(s, d) in grouped;
  }

  /** The keys with a single claimant, each with that claimant. */
  ghost predicate Single(grouped: map<string, set<DeviceId>>, rest: set<string>, routes: map<string, DeviceId>) {
    && (forall k :: k in routes <==> k in grouped && k !in rest && |grouped[k]| == 1)
    && (forall k <- routes :: routes[k] == TheOnly(grouped[k]))
  }

  lemma GroupedGivesRoutes(s: State, grouped: map<string, set<DeviceId>>, routes: map<string, DeviceId>)
    requires Grouped(s, grouped, {}) && Single(grouped, {}, routes)
    ensures routes == RoutesOf(s)
  {
    forall k
      ensures k in routes <==> k in RoutesOf(s)
      ensures k in routes ==> routes[k] == RoutesOf(s)[k]
    {
      RoutesOfAt(s, k);
      GroupedAt(s, grouped, k);
    }
  }

  /** The loop over the claim table. */
  method SingleClaims(grouped: map<string, set<DeviceId>>) returns (routes: map<string, DeviceId>)
    ensures Single(grouped, {}, routes)
  {
    routes := map[];
    var rest := grouped.Keys;
    while rest != {}
      invariant rest <= grouped.Keys && Single(grouped, rest, routes)
      decreases |rest|
    {
      var key :| key in rest;
      if |grouped[key]| == 1 {
        routes := routes[key := TheOnly(grouped[key])];
      }
      rest := rest - {key};
    }
  }

  // ---------------------------------------------------------------------------------------------
  // The actor
  // ---------------------------------------------------------------------------------------------

  class Provider {
    const config: Config
    var active: bool
    var leased: bool
    var paired: set<DeviceId>
    var identities: map<DeviceId, Identity>
    var conflicted: set<DeviceId>
    var channels: Registry
    var pending: map<ChannelId, DeviceId>
    var roles: map<DeviceId, RoleState>
    var stored: map<DeviceId, Role>
    var published: map<string, DeviceId>

    ghost function View(): State
      reads this
    {
      State(active, leased, paired, identities, conflicted, channels, pending, roles, stored)
    }

    ghost function Whole(): Session
      reads this
    {
      Session(View(), published)
    }

    constructor (config: Config, stored: map<DeviceId, Role>)
      ensures this.config == config && Whole() == InitialSession(stored) && Inv(Whole())
    {
      this.config, this.stored := config, stored;
      active, leased, paired, conflicted := false, false, {}, {};
      identities, channels, pending, roles, published := map[], map[], map[], map[], map[];
      new;
      InitialSessionIsSafe(stored);
    }

    method BindIdentity(candidate: Identity, d: DeviceId) returns (ok: bool)
      modifies this`identities, this`conflicted
      ensures (View(), ok) == Bind(old(View()), d, Normalized(config, candidate))
    {
      var normalized := Normalized(config, candidate);
      if !active || d !in paired || normalized.None? || d in conflicted {
        return false;
      }
      if d in identities && identities[d].peerKey != normalized.value.peerKey {
        identities := identities - {d};
        conflicted := conflicted + {d};
        return false;
      }
      var duplicates :=
        set c | c in identities && c != d && c in paired && identities[c].peerKey == normalized.value.peerKey;
      identities := identities[d := normalized.value];
      if duplicates != {} {
        conflicted := conflicted + {d} + duplicates;
        return false;
      }
      return true;
    }

    method RejectPendingChannel(d: DeviceId, c: ChannelId)
      modifies this`pending, this`identities
      ensures View() == RejectPending(old(View()), d, c)
    {
      pending := pending - {c};
      var selected := Select(EntriesOf(channels, d), if d in roles then roles[d].role else None);
      if selected.Some? {
        identities := identities[d := selected.value.identity];
      } else if d !in conflicted {
        identities := identities - {d};
      }
    }

    method JudgeChannelRole(d: DeviceId, direction: Direction, canonical: Option<Role>) returns (accepted: bool)
      modifies this`roles, this`stored
      ensures (View(), accepted) == JudgeRole(old(View()), config.automatic, canonical, d, direction)
    {
      if !config.automatic {
        return true;
      }
      var known := if d in roles then roles[d] else FromPersisted(if d in stored then Some(stored[d]) else None);
      var (state, verdict) := Authenticate(known, canonical, direction);
      roles := roles[d := state];
      if !verdict.IdentityCollision? && verdict.roleChanged {
        stored := stored[d := verdict.role];
      }
      return verdict.Accepted?;
    }

    method AdmitChannel(d: DeviceId, c: ChannelId, direction: Direction, canonical: Option<Role>) returns (ok: bool)
      requires d in identities
      modifies this`identities, this`pending, this`channels, this`roles, this`stored
      ensures (View(), ok) == Admit(old(View()), config.automatic, canonical, d, c, direction)
    {
      var entry := Entry(c, d, direction, identities[d]);
      ok := JudgeChannelRole(d, direction, canonical);
      if !ok {
        RejectPendingChannel(d, c);
        return false;
      }
      var registered := Register(channels, entry);
      channels := registered.0;
      pending := pending - {c};
    }

    method RegisterInTables(d: DeviceId, c: ChannelId, direction: Direction, identity: Identity, current: bool)
      returns (ok: bool, changed: bool)
      modifies this`identities, this`conflicted, this`pending, this`channels, this`roles, this`stored
      ensures (View(), ok) == RegisterChannel(config, old(View()), d, c, direction, identity, current)
      ensures changed
         <==> old(c !in EntriesOf(channels, d) && current && d in paired && c in pending && pending[c] == d)
    {
      var entries := EntriesOf(channels, d);
      if c in entries {
        return entries[c].direction == direction && entries[c].identity.peerKey == identity.peerKey && d !in conflicted,
               false;
      }
      if !current || d !in paired || c !in pending || pending[c] != d {
        return false, false;
      }
      changed := true;
      ok := BindIdentity(identity, d);
      if ok {
        ok := AdmitChannel(d, c, direction, Canonical(config.localKey, identities[d].peerKey));
      } else {
        RejectPendingChannel(d, c);
      }
    }

    /** One turn; `SessionStepKeepsInv` says that it keeps the invariant. */
    method RegisterControlChannel(d: DeviceId, c: ChannelId, direction: Direction, identity: Identity, current: bool)
      returns (ok: bool)
      requires current ==> active
      modifies this
      ensures Whole() == SessionStep(config, old(Whole()), RegisterReady(d, c, direction, identity, current))
      ensures ok == RegisterChannel(config, old(View()), d, c, direction, identity, current).1
    {
      var changed: bool;
      ok, changed := RegisterInTables(d, c, direction, identity, current);
      if changed {
        PublishRoutes();
      }
    }

    method ReconcileIdentity(d: DeviceId)
      modifies this`identities
      ensures View() == Reconcile(old(View()), d)
    {
      var selected := Select(EntriesOf(channels, d), if d in roles then roles[d].role else None);
      if selected.Some? {
        identities := identities[d := selected.value.identity];
      } else if d !in conflicted {
        identities := identities - {d};
      }
    }

    method CloseInTables(d: DeviceId, c: ChannelId, current: bool)
      modifies this`identities, this`pending, this`channels, this`roles
      ensures View() == CloseChannel(config, old(View()), d, c, current)
    {
      var known := c in EntriesOf(channels, d);
      pending := pending - {c};
      if known {
        channels := Remove(channels, d, c);
        if config.automatic && current && d in roles {
          roles := roles[d := ChannelClosed(roles[d], EntriesOf(channels, d) != map[])];
        }
        ReconcileIdentity(d);
      }
    }

    method ControlChannelClosed(d: DeviceId, c: ChannelId, current: bool)
      modifies this
      ensures Whole() == SessionStep(config, old(Whole()), ChannelEnds(d, c, current))
    {
      var known := c in EntriesOf(channels, d);
      CloseInTables(d, c, current);
      if known {
        PublishRoutes();
      }
    }

    /** The peer key of a device's ready channel, where the device may be published at all. */
    method ClaimOf(d: DeviceId) returns (key: Option<string>)
      requires d in paired
      ensures key == if d in Eligible(View()) then Some(Selected(View(), d).value.identity.peerKey) else None
    {
      var entry := Select(EntriesOf(channels, d), if d in roles then roles[d].role else None);
      if !active || d in conflicted || entry.None? {
        return None;
      }
      return Some(entry.value.identity.peerKey);
    }

    /** Groups the eligible devices by the key they claim. */
    method GroupClaims() returns (grouped: map<string, set<DeviceId>>)
      ensures Grouped(View(), grouped, {})
    {
      grouped := map[];
      var rest := paired;
      while rest != {}
        invariant rest <= paired && Grouped(View(), grouped, rest)
        decreases |rest|
      {
        var d :| d in rest;
        var key := ClaimOf(d);
        GroupStep(View(), grouped, rest, d);
        if key.Some? {
          grouped := grouped[key.value := (if key.value in grouped then grouped[key.value] else {}) + {d}];
        }
        rest := rest - {d};
      }
    }

    /** Publishes the keys with exactly one claimant. */
    method PublishRoutes()
      modifies this`published
      ensures published == RoutesOf(View())
    {
      var grouped := GroupClaims();
      var routes := SingleClaims(grouped);
      GroupedGivesRoutes(View(), grouped, routes);
      if routes != published {
        published := routes;
      }
    }
  }
}
