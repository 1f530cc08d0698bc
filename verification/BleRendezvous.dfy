/**
 * The Bluetooth rendezvous wire format: an invitation envelope, cut into frames that fit a GATT write and put
 * back together by an assembler that resynchronises on every frame with offset zero.
 */
module BleRendezvous {
  import opened Prelude
  import opened Text

  const FRAME_HEADER_SIZE := 16
  const MAXIMUM_WIRE_PAYLOAD_BYTES := 4096
  const MAXIMUM_INVITE_BYTES := 2048
  const MAXIMUM_DISPLAY_NAME_BYTES := 192
  const ENVELOPE_FIXED_BYTES := 6 + PEER_KEY_LENGTH

  type RequestId = x: int | 0 <= x < 0x1_0000_0000_0000_0000

  datatype Invite = Invite(requestID: string, senderPeerKey: string, senderDisplayName: Option<string>, invite: string)

  /**
   * What the platform supplies: grapheme segmentation, the display-name sanitiser, and the test for a public
   * verification offer, held fixed between encoding and decoding.
   */
  datatype Platform = Platform(
    segment: string -> seq<string>,
    sanitize: string -> Option<string>,
    isOffer: string -> bool
  )

  /** The pluggable payload protection. */
  datatype Security = Security(mode: Byte, seal: seq<Byte> -> seq<Byte>, open: seq<Byte> -> Option<seq<Byte>>)

  /** The protection the app ships: none. */
  function InsecureSecurity(): Security {
    Security(0, (plain: seq<Byte>) => plain, (payload: seq<Byte>) => Some(payload))
  }

  /** `open` undoes `seal`, and sealing something never yields nothing. */
  ghost predicate Lawful(security: Security) {
    forall plain: seq<Byte> :: plain != [] ==>
      security.seal(plain) != [] && security.open(security.seal(plain)) == Some(plain)
  }

  // ---------------------------------------------------------------------------------------------
  // Encoding
  // ---------------------------------------------------------------------------------------------

  /** How many leading clusters fit in the limit; the first that does not fit ends the name. */
  function FittingClusters(clusters: seq<string>, limit: int): (n: nat)
    ensures n <= |clusters|
  {
    if clusters == [] || |EncodeUtf8(clusters[0])| > limit then 0
    else 1 + FittingClusters(clusters[1..], limit - |EncodeUtf8(clusters[0])|)
  }

  function BoundedName(platform: Platform, name: string): string {
    var clusters := platform.segment(Trim(name));
    Concat(clusters[..FittingClusters(clusters, MAXIMUM_DISPLAY_NAME_BYTES)])
  }

  /** The bounded name is the longest run of whole leading characters that fits. */
  lemma {:induction false} FittingClustersIsLongest(clusters: seq<string>, limit: nat)
    ensures var n := FittingClusters(clusters, limit);
            && |EncodeUtf8(Concat(clusters[..n]))| <= limit
            && (n < |clusters| ==> |EncodeUtf8(Concat(clusters[..n + 1]))| > limit)
    decreases |clusters|
  {
    var n := FittingClusters(clusters, limit);
    if clusters == [] {
    } else if |EncodeUtf8(clusters[0])| > limit {
      assert clusters[..1] == [clusters[0]] && [clusters[0]][1..] == [];
      assert Concat(clusters[..1]) == clusters[0];
    } else {
      var head, rest := clusters[0], clusters[1..];
      FittingClustersIsLongest(rest, limit - |EncodeUtf8(head)|);
      assert clusters[..n][1..] == rest[..n - 1];
      EncodeUtf8Append(head, Concat(rest[..n - 1]));
      if n < |clusters| {
        assert clusters[..n + 1][1..] == rest[..n];
        EncodeUtf8Append(head, Concat(rest[..n]));
      }
    }
  }

  lemma ClusterStep(clusters: seq<string>, i: nat, room: int)
    requires i < |clusters|
    ensures EncodeUtf8(Concat(clusters[..i + 1])) == EncodeUtf8(Concat(clusters[..i])) + EncodeUtf8(clusters[i])
    ensures FittingClusters(clusters[i..], room)
         == if |EncodeUtf8(clusters[i])| > room then 0
            else 1 + FittingClusters(clusters[i + 1..], room - |EncodeUtf8(clusters[i])|)
  {
    assert clusters[..i + 1] == clusters[..i] + [clusters[i]];
    ConcatAppend(clusters[..i], clusters[i]);
    EncodeUtf8Append(Concat(clusters[..i]), clusters[i]);
    assert clusters[i..][1..] == clusters[i + 1..];
  }

  /** The loop over characters that stops at the first one that does not fit. */
  method BoundedUtf8(platform: Platform, name: string) returns (result: seq<Byte>)
    ensures result == EncodeUtf8(BoundedName(platform, name))
    ensures |result| <= MAXIMUM_DISPLAY_NAME_BYTES
  {
    result := [];
    var clusters := platform.segment(Trim(name));
    var i := 0;
    assert clusters[0..] == clusters;
    while i < |clusters|
      invariant 0 <= i <= |clusters| && |result| <= MAXIMUM_DISPLAY_NAME_BYTES
      invariant result == EncodeUtf8(Concat(clusters[..i]))
      invariant i + FittingClusters(clusters[i..], MAXIMUM_DISPLAY_NAME_BYTES - |result|)
             == FittingClusters(clusters, MAXIMUM_DISPLAY_NAME_BYTES)
    {
      var bytes := EncodeUtf8(clusters[i]);
      ClusterStep(clusters, i, MAXIMUM_DISPLAY_NAME_BYTES - |result|);
      if |result| + |bytes| > MAXIMUM_DISPLAY_NAME_BYTES {
        return;
      }
      result := result + bytes;
      i := i + 1;
    }
  }

  function Envelope(key: seq<Byte>, name: seq<Byte>, invite: seq<Byte>): (b: seq<Byte>)
    ensures |b| == 6 + |key| + |name| + |invite|
  {
    [1, 1] + key + BigEndian(|name|, 2) + BigEndian(|invite|, 2) + name + invite
  }

  function Header(requestID: RequestId, total: nat, offset: nat): (b: seq<Byte>)
    ensures |b| == FRAME_HEADER_SIZE
  {
    [0x45, 0x58, 1, 1] + BigEndian(requestID, 8) + BigEndian(total, 2) + BigEndian(offset, 2)
  }

  /** The frames for payload[offset..], each carrying at most `capacity` payload bytes. */
  function Fragments(payload: seq<Byte>, requestID: RequestId, capacity: nat, offset: nat): seq<seq<Byte>>
    requires capacity > 0 && offset <= |payload|
    decreases |payload| - offset
  {
    if offset == |payload| then []
    else
      var count := if capacity < |payload| - offset then capacity else |payload| - offset;
      [Header(requestID, |payload|, offset) + payload[offset..offset + count]]
      + Fragments(payload, requestID, capacity, offset + count)
  }

  /** The normalised key and trimmed invitation, or None when the encoder refuses them. */
  function Checked(platform: Platform, peerKey: string, invite: string): Option<(string, string)> {
    var key := NormalizePeerKey(peerKey);
    var text := Trim(invite);
    if key.None? || !platform.isOffer(text) || text == [] || |EncodeUtf8(text)| > MAXIMUM_INVITE_BYTES then None
    else Some((key.value, text))
  }

  /** The wire payload, or None when the encoder refuses. */
  function WirePayload(platform: Platform, security: Security, peerKey: string, displayName: string, invite: string)
    : (r: Option<seq<Byte>>)
    ensures r.Some? ==> 1 <= |r.value| <= MAXIMUM_WIRE_PAYLOAD_BYTES
  {
    match Checked(platform, peerKey, invite)
    case None => None
    case Some((key, text)) =>
      var plain := Envelope(EncodeUtf8(key), EncodeUtf8(BoundedName(platform, displayName)), EncodeUtf8(text));
      var wire := [security.mode] + security.seal(plain);
      if |wire| > MAXIMUM_WIRE_PAYLOAD_BYTES then None else Some(wire)
  }

  /** The loop that cuts a payload into frames. */
  method CutFrames(payload: seq<Byte>, requestID: RequestId, capacity: nat) returns (frames: seq<seq<Byte>>)
    requires capacity > 0
    ensures frames == Fragments(payload, requestID, capacity, 0)
    ensures forall i :: 0 <= i < |frames| ==> |frames[i]| <= capacity + FRAME_HEADER_SIZE
  {
    frames := [];
    var offset := 0;
    while offset < |payload|
      invariant 0 <= offset <= |payload|
      invariant frames + Fragments(payload, requestID, capacity, offset) == Fragments(payload, requestID, capacity, 0)
      invariant forall i :: 0 <= i < |frames| ==> |frames[i]| <= capacity + FRAME_HEADER_SIZE
    {
      var count := if capacity < |payload| - offset then capacity else |payload| - offset;
      var frame := Header(requestID, |payload|, offset) + payload[offset..offset + count];
      ghost var rest := Fragments(payload, requestID, capacity, offset + count);
      assert frames + ([frame] + rest) == frames + [frame] + rest;
      frames := frames + [frame];
      offset := offset + count;
    }
  }

  method BuildPayload(platform: Platform, security: Security, peerKey: string, displayName: string, invite: string)
    returns (wire: Option<seq<Byte>>)
    ensures wire == WirePayload(platform, security, peerKey, displayName, invite)
  {
    var checked := Checked(platform, peerKey, invite);
    if checked.None? {
      return None;
    }
    var nameBytes := BoundedUtf8(platform, displayName);
    var plain := Envelope(EncodeUtf8(checked.value.0), nameBytes, EncodeUtf8(checked.value.1));
    var payload := [security.mode] + security.seal(plain);
    if |payload| > MAXIMUM_WIRE_PAYLOAD_BYTES {
      return None;
    }
    return Some(payload);
  }

  method EncodeInvite(platform: Platform, security: Security, peerKey: string, displayName: string, invite: string,
                      requestID: RequestId, maximumFrameBytes: int)
    returns (frames: Option<seq<seq<Byte>>>)
    ensures frames.Some? <==> WirePayload(platform, security, peerKey, displayName, invite).Some?
                              && maximumFrameBytes > FRAME_HEADER_SIZE
    ensures frames.Some? ==>
              frames.value == Fragments(WirePayload(platform, security, peerKey, displayName, invite).value, requestID,
                                        maximumFrameBytes - FRAME_HEADER_SIZE, 0)
    ensures frames.Some? ==> forall i :: 0 <= i < |frames.value| ==> |frames.value[i]| <= maximumFrameBytes
  {
    var wire := BuildPayload(platform, security, peerKey, displayName, invite);
    if wire.None? || maximumFrameBytes <= FRAME_HEADER_SIZE {
      return None;
    }
    var cut := CutFrames(wire.value, requestID, maximumFrameBytes - FRAME_HEADER_SIZE);
    return Some(cut);
  }

  // ---------------------------------------------------------------------------------------------
  // Decoding
  // ---------------------------------------------------------------------------------------------

  function DecodeEnvelope(platform: Platform, requestID: RequestId, bytes: seq<Byte>): Option<Invite> {
    if |bytes| < ENVELOPE_FIXED_BYTES || bytes[0] != 1 || bytes[1] != 1 then None
    else
      var rawKey := AsciiString(bytes[2..18]);
      if rawKey.None? then None
      else
        var key := NormalizePeerKey(rawKey.value);
        var nameLength, inviteLength := FromBigEndian(bytes[18..20]), FromBigEndian(bytes[20..22]);
        if key.None? || nameLength > MAXIMUM_DISPLAY_NAME_BYTES || inviteLength == 0
            || inviteLength > MAXIMUM_INVITE_BYTES
           || ENVELOPE_FIXED_BYTES + nameLength + inviteLength != |bytes| then None
        else
          var name := DecodeUtf8(bytes[ENVELOPE_FIXED_BYTES..ENVELOPE_FIXED_BYTES + nameLength]);
          var invite := DecodeUtf8(bytes[ENVELOPE_FIXED_BYTES + nameLength..]);
          if name.None? || invite.None? || !platform.isOffer(Trim(invite.value)) then None
          else Some(Invite(Hex(requestID, 16), key.value, platform.sanitize(name.value), Trim(invite.value)))
  }

  /** A frame whose fixed fields are in order, taken apart. */
  datatype Fragment = Fragment(requestID: RequestId, total: nat, offset: nat, chunk: seq<Byte>)

  function ParseFragment(frame: seq<Byte>): (r: Option<Fragment>)
    ensures r.Some? ==> r.value.chunk != [] && r.value.offset + |r.value.chunk| <= r.value.total
    ensures r.Some? ==> 1 < r.value.total <= MAXIMUM_WIRE_PAYLOAD_BYTES
  {
    if |frame| <= FRAME_HEADER_SIZE || frame[0..2] != [0x45, 0x58] || frame[2] != 1 || frame[3] != 1 then None
    else
      FromBigEndianBound(frame[4..12]);
      assert Power256(8) == 0x1_0000_0000_0000_0000;
      var id, total, offset := FromBigEndian(frame[4..12]), FromBigEndian(frame[12..14]), FromBigEndian(frame[14..16]);
      var chunk := frame[FRAME_HEADER_SIZE..];
      if total <= 1 || total > MAXIMUM_WIRE_PAYLOAD_BYTES || offset + |chunk| > total then None
      else Some(Fragment(id, total, offset, chunk))
  }

  datatype Assembly = Assembly(requestID: Option<RequestId>, totalLength: nat, bytes: seq<Byte>)

  const Idle := Assembly(None, 0, [])

  /** What is left once the bytes of one message are complete. */
  function Complete(platform: Platform, security: Security, requestID: RequestId, payload: seq<Byte>): Option<Invite> {
    if payload == [] || payload[0] != security.mode then None
    else match security.open(payload[1..])
         case None => None
         case Some(plain) => DecodeEnvelope(platform, requestID, plain)
  }

  /** How a finished message is turned into an answer. */
  type Completion = (RequestId, seq<Byte>) -> Option<Invite>

  function CompletionOf(platform: Platform, security: Security): Completion {
    (requestID: RequestId, payload: seq<Byte>) => Complete(platform, security, requestID, payload)
  }

  function Accept(done: Completion, state: Assembly, frame: seq<Byte>): (Assembly, Option<Invite>) {
    match ParseFragment(frame)
    case None => (Idle, None)
    case Some(f) =>
      if f.offset != 0
         && (state.requestID != Some(f.requestID) || state.totalLength != f.total || |state.bytes| != f.offset)
      then (Idle, None)
      else
        var bytes := (if f.offset == 0 then [] else state.bytes) + f.chunk;
        if |bytes| == f.total then (Idle, done(f.requestID, bytes))
        else (Assembly(Some(f.requestID), f.total, bytes), None)
  }

  /** An assembler as a step function, whatever it does with a finished message. */
  type Acceptor = (Assembly, seq<Byte>) -> (Assembly, Option<Invite>)

  /** It steps as the assembler does. */
  ghost predicate Steps(accept: Acceptor, done: Completion) {
    forall s: Assembly, f: seq<Byte> {:trigger Accept(done, s, f)} :: accept(s, f) == Accept(done, s, f)
  }

  /** The assembler's state and its answers, one per frame. */
  function Feed(accept: Acceptor, state: Assembly, frames: seq<seq<Byte>>): (r: (Assembly, seq<Option<Invite>>))
    ensures |r.1| == |frames|
    decreases |frames|
  {
    if frames == [] then (state, [])
    else
      var first := accept(state, frames[0]);
      var rest := Feed(accept, first.0, frames[1..]);
      (rest.0, [first.1] + rest.1)
  }

  class Assembler {
    const platform: Platform
    const security: Security
    var requestID: Option<RequestId>
    var totalLength: nat
    var bytes: seq<Byte>

    ghost function View(): Assembly
      reads this
    {
      Assembly(requestID, totalLength, bytes)
    }

    constructor (platform: Platform, security: Security)
      ensures this.platform == platform && this.security == security && View() == Idle
    {
      this.platform, this.security := platform, security;
      requestID, totalLength, bytes := None, 0, [];
    }

    method Reset()
      modifies this
      ensures View() == Idle
    {
      requestID, totalLength, bytes := None, 0, [];
    }

    method AcceptFrame(frame: seq<Byte>) returns (result: Option<Invite>)
      modifies this
      ensures (View(), result) == Accept(CompletionOf(platform, security), old(View()), frame)
    {
      var parsed := ParseFragment(frame);
      if parsed.None? {
        Reset();
        return None;
      }
      var f := parsed.value;
      if f.offset == 0 {
        requestID, totalLength, bytes := Some(f.requestID), f.total, [];
      } else if requestID != Some(f.requestID) || totalLength != f.total || |bytes| != f.offset {
        Reset();
        return None;
      }
      bytes := bytes + f.chunk;
      if |bytes| != totalLength {
        return None;
      }
      var payload := bytes;
      Reset();
      result := Complete(platform, security, f.requestID, payload);
    }
  }

  // ---------------------------------------------------------------------------------------------
  // Round trip
  // ---------------------------------------------------------------------------------------------

  /** A frame the encoder built parses back to its own fields; nothing overflows sixteen bits. */
  lemma FrameRoundTrip(requestID: RequestId, total: nat, offset: nat, chunk: seq<Byte>)
    requires 1 < total <= MAXIMUM_WIRE_PAYLOAD_BYTES && chunk != [] && offset + |chunk| <= total
    ensures ParseFragment(Header(requestID, total, offset) + chunk) == Some(Fragment(requestID, total, offset, chunk))
  {
    var frame := Header(requestID, total, offset) + chunk;
    assert Power256(8) == 0x1_0000_0000_0000_0000 && Power256(2) == 65536;
    assert frame[0..2] == [0x45, 0x58];
    assert frame[4..12] == BigEndian(requestID, 8);
    assert frame[12..14] == BigEndian(total, 2);
    assert frame[14..16] == BigEndian(offset, 2);
    assert frame[16..] == chunk;
    BigEndianRoundTrip(requestID, 8);
    BigEndianRoundTrip(total, 2);
    BigEndianRoundTrip(offset, 2);
  }

  /** Silence for every frame but the last, whose answer is `last`. */
  function OnlyLast(n: nat, last: Option<Invite>): seq<Option<Invite>>
    requires n > 0
  {
    if n == 1 then [last] else [None] + OnlyLast(n - 1, last)
  }

  /** One of our own frames moves the assembler from holding payload[..offset] to holding payload[..offset + count]. */
  lemma AcceptOwnFrame(
    accept: Acceptor, done: Completion, state: Assembly, payload: seq<Byte>, requestID: RequestId, offset: nat,
    count: nat)
    requires Steps(accept, done)
    requires 1 < |payload| <= MAXIMUM_WIRE_PAYLOAD_BYTES && 0 < count <= |payload| - offset
    requires offset > 0 ==> state == Assembly(Some(requestID), |payload|, payload[..offset])
    ensures accept(state, Header(requestID, |payload|, offset) + payload[offset..offset + count])
         == if offset + count == |payload| then (Idle, done(requestID, payload))
            else (Assembly(Some(requestID), |payload|, payload[..offset + count]), None)
  {
    var chunk := payload[offset..offset + count];
    FrameRoundTrip(requestID, |payload|, offset, chunk);
    assert (if offset == 0 then [] else payload[..offset]) + chunk == payload[..offset + count];
    if offset + count == |payload| { assert payload[..offset + count] == payload; }
    assert accept(state, Header(requestID, |payload|, offset) + chunk)
        == Accept(done, state, Header(requestID, |payload|, offset) + chunk);
  }

  lemma FeedFrom(accept: Acceptor, state: Assembly, first: seq<Byte>, rest: seq<seq<Byte>>, next: Assembly,
                 answer: Option<Invite>)
    requires accept(state, first) == (next, answer)
    ensures Feed(accept, state, [first] + rest) == (Feed(accept, next, rest).0, [answer] + Feed(accept, next, rest).1)
  {
    assert ([first] + rest)[1..] == rest;
  }

  /** The frames are answered with silence until the last one, then with `answer`; nothing is left over. */
  ghost predicate Reassembles(accept: Acceptor, state: Assembly, frames: seq<seq<Byte>>, answer: Option<Invite>) {
    frames != [] && Feed(accept, state, frames) == (Idle, OnlyLast(|frames|, answer))
  }

  lemma ReassemblesFrom(accept: Acceptor, state: Assembly, first: seq<Byte>, rest: seq<seq<Byte>>, next: Assembly,
                        answer: Option<Invite>)
    requires if rest == [] then accept(state, first) == (Idle, answer)
             else accept(state, first) == (next, None) && Reassembles(accept, next, rest, answer)
    ensures Reassembles(accept, state, [first] + rest, answer)
  {
    if rest == [] {
      FeedFrom(accept, state, first, [], Idle, answer);
      assert [answer] + [] == [answer];
    } else {
      FeedFrom(accept, state, first, rest, next, None);
    }
  }

  /**
   * From any state when offset is zero, and from the matching state otherwise, the remaining frames deliver the
   * message.
   */
  lemma {:induction false} FragmentsReassemble(
    accept: Acceptor, done: Completion, state: Assembly, payload: seq<Byte>, requestID: RequestId, capacity: nat,
    offset: nat, answer: Option<Invite>)
    requires Steps(accept, done) && done(requestID, payload) == answer
    requires 1 < |payload| <= MAXIMUM_WIRE_PAYLOAD_BYTES && capacity > 0 && offset < |payload|
    requires offset > 0 ==> state == Assembly(Some(requestID), |payload|, payload[..offset])
    ensures Reassembles(accept, state, Fragments(payload, requestID, capacity, offset), answer)
    decreases |payload| - offset
  {
    var count := if capacity < |payload| - offset then capacity else |payload| - offset;
    var first := Header(requestID, |payload|, offset) + payload[offset..offset + count];
    var rest := Fragments(payload, requestID, capacity, offset + count);
    AcceptOwnFrame(accept, done, state, payload, requestID, offset, count);
    var next := Assembly(Some(requestID), |payload|, payload[..offset + count]);
    if offset + count < |payload| {
      FragmentsReassemble(accept, done, next, payload, requestID, capacity, offset + count, answer);
    }
    ReassemblesFrom(accept, state, first, rest, next, answer);
  }

  /** What an assembler makes of a message's frames: silence before the last, the last answer, and the state after. */
  datatype Delivery = Delivery(silentBefore: bool, last: Option<Invite>, after: Assembly)

  function Deliver(accept: Acceptor, state: Assembly, payload: seq<Byte>, requestID: RequestId, capacity: nat): Delivery
    requires capacity > 0
  {
    var (after, answers) := Feed(accept, state, Fragments(payload, requestID, capacity, 0));
    var n := |answers|;
    Delivery(forall i :: 0 <= i < n - 1 ==> answers[i].None?, if n == 0 then None else answers[n - 1], after)
  }

  lemma {:induction false} OnlyLastAt(n: nat, last: Option<Invite>)
    requires n > 0
    ensures |OnlyLast(n, last)| == n && OnlyLast(n, last)[n - 1] == last
    ensures forall i :: 0 <= i < n - 1 ==> OnlyLast(n, last)[i].None?
  {
    if n > 1 { OnlyLastAt(n - 1, last); }
  }

  lemma FragmentsDeliver(
    accept: Acceptor, done: Completion, state: Assembly, payload: seq<Byte>, requestID: RequestId, capacity: nat,
    answer: Option<Invite>)
    requires Steps(accept, done) && 1 < |payload| <= MAXIMUM_WIRE_PAYLOAD_BYTES && capacity > 0
    requires done(requestID, payload) == answer
    ensures Deliver(accept, state, payload, requestID, capacity) == Delivery(true, answer, Idle)
  {
    FragmentsReassemble(accept, done, state, payload, requestID, capacity, 0, answer);
    OnlyLastAt(|Fragments(payload, requestID, capacity, 0)|, answer);
  }

  /** The assembler's own way of finishing a message. */
  ghost predicate Completes(done: Completion, platform: Platform, security: Security) {
    forall id: RequestId, p: seq<Byte> {:trigger Complete(platform, security, id, p)} ::
      done(id, p) == Complete(platform, security, id, p)
  }

  /** The assembler itself as a step function. */
  function AcceptorOf(platform: Platform, security: Security): Acceptor {
    (state: Assembly, frame: seq<Byte>) => Accept(CompletionOf(platform, security), state, frame)
  }

  lemma AssemblerSteps(platform: Platform, security: Security)
    ensures Completes(CompletionOf(platform, security), platform, security)
    ensures Steps(AcceptorOf(platform, security), CompletionOf(platform, security))
  {
  }

  lemma EnvelopeLayout(key: string, name: seq<Byte>, invite: seq<Byte>)
    requires IsPeerKey(key) && |name| < 65536 && |invite| < 65536
    ensures var bytes := Envelope(EncodeUtf8(key), name, invite);
            && |bytes| == ENVELOPE_FIXED_BYTES + |name| + |invite|
            && bytes[0] == 1 && bytes[1] == 1 && AsciiString(bytes[2..18]) == Some(key)
            && FromBigEndian(bytes[18..20]) == |name| && FromBigEndian(bytes[20..22]) == |invite|
            && bytes[22..22 + |name|] == name && bytes[22 + |name|..] == invite
  {
    NormalizeFixesPeerKeys(key);
    AsciiIsUtf8(key);
    var bytes := Envelope(EncodeUtf8(key), name, invite);
    assert Power256(2) == 65536;
    assert bytes[2..18] == AsciiBytes(key);
    assert AsciiString(AsciiBytes(key)).value == key;
    assert bytes[18..20] == BigEndian(|name|, 2);
    assert bytes[20..22] == BigEndian(|invite|, 2);
    BigEndianRoundTrip(|name|, 2);
    BigEndianRoundTrip(|invite|, 2);
  }

  lemma EncodedIsNonEmpty(s: string)
    requires s != []
    ensures EncodeUtf8(s) != []
  {
  }

  lemma EnvelopeRoundTrip(platform: Platform, requestID: RequestId, key: string, name: string, invite: string)
    requires IsPeerKey(key) && |EncodeUtf8(name)| <= MAXIMUM_DISPLAY_NAME_BYTES
    requires invite != [] && |EncodeUtf8(invite)| <= MAXIMUM_INVITE_BYTES
    requires Trim(invite) == invite && platform.isOffer(invite)
    ensures DecodeEnvelope(platform, requestID, Envelope(EncodeUtf8(key), EncodeUtf8(name), EncodeUtf8(invite)))
         == Some(Invite(Hex(requestID, 16), key, platform.sanitize(name), invite))
  {
    EnvelopeLayout(key, EncodeUtf8(name), EncodeUtf8(invite));
    EncodedIsNonEmpty(invite);
    Utf8RoundTrip(name);
    Utf8RoundTrip(invite);
    NormalizeFixesPeerKeys(key);
  }

  /** What the receiver should see. */
  function Expected(platform: Platform, peerKey: string, displayName: string, invite: string, requestID: RequestId)
    : Invite
    requires NormalizePeerKey(peerKey).Some?
  {
    Invite(Hex(requestID, 16), NormalizePeerKey(peerKey).value, platform.sanitize(BoundedName(platform, displayName)),
           Trim(invite))
  }

  lemma SealedRoundTrip(platform: Platform, security: Security, requestID: RequestId, plain: seq<Byte>)
    requires Lawful(security) && plain != []
    ensures 1 < |[security.mode] + security.seal(plain)|
    ensures Complete(platform, security, requestID, [security.mode] + security.seal(plain))
         == DecodeEnvelope(platform, requestID, plain)
  {
    assert ([security.mode] + security.seal(plain))[1..] == security.seal(plain);
  }

  lemma PayloadRoundTrip(platform: Platform, security: Security, peerKey: string, displayName: string, invite: string,
                         requestID: RequestId)
    requires Lawful(security)
    requires WirePayload(platform, security, peerKey, displayName, invite).Some?
    ensures var payload := WirePayload(platform, security, peerKey, displayName, invite).value;
            && 1 < |payload| <= MAXIMUM_WIRE_PAYLOAD_BYTES
            && NormalizePeerKey(peerKey).Some?
            && Complete(platform, security, requestID, payload)
               == Some(Expected(platform, peerKey, displayName, invite, requestID))
  {
    var payload := WirePayload(platform, security, peerKey, displayName, invite).value;
    var key, text := Checked(platform, peerKey, invite).value.0, Checked(platform, peerKey, invite).value.1;
    var name := BoundedName(platform, displayName);
    SealedRoundTrip(platform, security, requestID, Envelope(EncodeUtf8(key), EncodeUtf8(name), EncodeUtf8(text)));
    TrimSettles(invite);
    TrimSettles(text);
    FittingClustersIsLongest(platform.segment(Trim(displayName)), MAXIMUM_DISPLAY_NAME_BYTES);
    EnvelopeRoundTrip(platform, requestID, key, name, text);
  }

  lemma PayloadCompletes(platform: Platform, security: Security, done: Completion, peerKey: string, displayName: string,
                         invite: string, requestID: RequestId, payload: seq<Byte>)
    requires Lawful(security) && Completes(done, platform, security)
    requires WirePayload(platform, security, peerKey, displayName, invite) == Some(payload)
    ensures NormalizePeerKey(peerKey).Some? && 1 < |payload| <= MAXIMUM_WIRE_PAYLOAD_BYTES
    ensures done(requestID, payload) == Some(Expected(platform, peerKey, displayName, invite, requestID))
  {
    PayloadRoundTrip(platform, security, peerKey, displayName, invite, requestID);
  }

  /** What an invitation must be for the encoder to take it. */
  predicate Sendable(platform: Platform, peerKey: string, invite: string) {
    && IsPeerKey(Lowercase(Trim(peerKey)))
    && platform.isOffer(Trim(invite)) && 0 < |EncodeUtf8(Trim(invite))| <= 2048
  }

  lemma CheckedIff(platform: Platform, peerKey: string, invite: string)
    ensures Checked(platform, peerKey, invite).Some? <==> Sendable(platform, peerKey, invite)
    ensures Checked(platform, peerKey, invite).Some? ==>
              Checked(platform, peerKey, invite).value == (Lowercase(Trim(peerKey)), Trim(invite))
  {
    if Trim(invite) != [] { EncodedIsNonEmpty(Trim(invite)); }
  }

  /** The encoder yields a payload exactly for sendable invitations whose sealed envelope fits the wire limit. */
  lemma EncoderYieldsIff(platform: Platform, security: Security, peerKey: string, displayName: string, invite: string)
    ensures WirePayload(platform, security, peerKey, displayName, invite).Some?
       <==> && Sendable(platform, peerKey, invite)
            && 1 + |security.seal(Envelope(EncodeUtf8(Lowercase(Trim(peerKey))),
                                           EncodeUtf8(BoundedName(platform, displayName)), EncodeUtf8(Trim(invite))))|
               <= 4096
  {
    CheckedIff(platform, peerKey, invite);
  }

  /** With the shipped protection every sendable invitation fits, whatever the display name. */
  lemma ShippedEncoderYieldsIff(platform: Platform, peerKey: string, displayName: string, invite: string)
    ensures WirePayload(platform, InsecureSecurity(), peerKey, displayName, invite).Some?
       <==> Sendable(platform, peerKey, invite)
  {
    EncoderYieldsIff(platform, InsecureSecurity(), peerKey, displayName, invite);
    BoundedNameFits(platform, displayName);
    if Sendable(platform, peerKey, invite) { KeyBytes(Lowercase(Trim(peerKey))); }
  }

  lemma BoundedNameFits(platform: Platform, name: string)
    ensures |EncodeUtf8(BoundedName(platform, name))| <= MAXIMUM_DISPLAY_NAME_BYTES
  {
    FittingClustersIsLongest(platform.segment(Trim(name)), MAXIMUM_DISPLAY_NAME_BYTES);
  }

  lemma KeyBytes(key: string)
    requires IsPeerKey(key)
    ensures |EncodeUtf8(key)| == PEER_KEY_LENGTH
  {
    NormalizeFixesPeerKeys(key);
    AsciiIsUtf8(key);
  }

  /**
   * Round trip from any state. Whenever the encoder yields a payload, its frames, fed in order to an assembler left in
   * any state whatever by earlier traffic, produce nothing until the last one, then exactly the normalised key, the
   * request id, the sanitised bounded name and the trimmed invitation; and the assembler is idle again. The capacity is
   * what the frame size leaves after the header.
   */
  lemma InviteRoundTrip(platform: Platform, security: Security, accept: Acceptor, done: Completion, state: Assembly,
                        peerKey: string, displayName: string, invite: string, requestID: RequestId, capacity: nat,
                        payload: seq<Byte>)
    requires Lawful(security) && Completes(done, platform, security) && Steps(accept, done)
    requires capacity > 0
    requires WirePayload(platform, security, peerKey, displayName, invite) == Some(payload)
    ensures NormalizePeerKey(peerKey).Some?
    ensures Deliver(accept, state, payload, requestID, capacity)
         == Delivery(true, Some(Expected(platform, peerKey, displayName, invite, requestID)), Idle)
  {
    PayloadCompletes(platform, security, done, peerKey, displayName, invite, requestID, payload);
    FragmentsDeliver(accept, done, state, payload, requestID, capacity,
                     Some(Expected(platform, peerKey, displayName, invite, requestID)));
  }

  /** The same, said of the assembler itself. */
  lemma AssemblerRoundTrip(platform: Platform, security: Security, state: Assembly, peerKey: string,
                           displayName: string, invite: string, requestID: RequestId, capacity: nat,
                           payload: seq<Byte>)
    requires Lawful(security) && capacity > 0
    requires WirePayload(platform, security, peerKey, displayName, invite) == Some(payload)
    ensures NormalizePeerKey(peerKey).Some?
    ensures Deliver(AcceptorOf(platform, security), state, payload, requestID, capacity)
         == Delivery(true, Some(Expected(platform, peerKey, displayName, invite, requestID)), Idle)
  {
    AssemblerSteps(platform, security);
    InviteRoundTrip(platform, security, AcceptorOf(platform, security), CompletionOf(platform, security), state,
                    peerKey, displayName, invite, requestID, capacity, payload);
  }

  /** The shipped protection is lawful, so the round trip needs no condition on it. */
  lemma InsecureIsLawful()
    ensures Lawful(InsecureSecurity())
  {
  }

  // ---------------------------------------------------------------------------------------------
  // Soundness of the assembler
  // ---------------------------------------------------------------------------------------------

  /** The frames carry one message: same id and total, offsets that tile `bytes` from zero without gap or overlap. */
  ghost predicate Tiles(frames: seq<seq<Byte>>, requestID: RequestId, total: nat, bytes: seq<Byte>)
    decreases |frames|
  {
    if frames == [] then bytes == []
    else
      var last := ParseFragment(frames[|frames| - 1]);
      && last.Some? && last.value.requestID == requestID && last.value.total == total
      && last.value.offset + |last.value.chunk| == |bytes|
      && bytes[last.value.offset..] == last.value.chunk
      && Tiles(frames[..|frames| - 1], requestID, total, bytes[..last.value.offset])
  }

  /** Whatever an assembler holds was tiled by the frames it saw last. */
  ghost predicate HoldsTail(state: Assembly, seen: seq<seq<Byte>>) {
    state.requestID.Some? ==>
      exists k :: 0 <= k < |seen| && Tiles(seen[k..], state.requestID.value, state.totalLength, state.bytes)
  }

  lemma TilesExtends(seen: seq<seq<Byte>>, k: nat, frame: seq<Byte>, f: Fragment, bytes: seq<Byte>)
    requires k <= |seen| && ParseFragment(frame) == Some(f) && |bytes| == f.offset
    requires Tiles(seen[k..], f.requestID, f.total, bytes)
    ensures Tiles((seen + [frame])[k..], f.requestID, f.total, bytes + f.chunk)
  {
    var more := (seen + [frame])[k..];
    assert more[..|more| - 1] == seen[k..] && more[|more| - 1] == frame;
    assert (bytes + f.chunk)[..f.offset] == bytes && (bytes + f.chunk)[f.offset..] == f.chunk;
  }

  lemma AcceptHoldsTail(done: Completion, state: Assembly, seen: seq<seq<Byte>>, frame: seq<Byte>)
    returns (k: nat, f: Fragment, payload: seq<Byte>)
    requires HoldsTail(state, seen)
    ensures HoldsTail(Accept(done, state, frame).0, seen + [frame])
    ensures Accept(done, state, frame).1.Some? ==>
              && k <= |seen| && Tiles((seen + [frame])[k..], f.requestID, f.total, payload) && |payload| == f.total
              && Accept(done, state, frame).1 == done(f.requestID, payload)
  {
    var parsed := ParseFragment(frame);
    k, f, payload := 0, Fragment(0, 0, 0, []), [];
    if parsed.Some? {
      f := parsed.value;
      var after := Accept(done, state, frame);
      if f.offset == 0 {
        k := |seen|;
        assert seen[k..] == [] && [] + f.chunk == f.chunk;
        TilesExtends(seen, k, frame, f, []);
        payload := f.chunk;
      } else if state.requestID == Some(f.requestID) && state.totalLength == f.total && |state.bytes| == f.offset {
        k :| 0 <= k < |seen| && Tiles(seen[k..], f.requestID, f.total, state.bytes);
        TilesExtends(seen, k, frame, f, state.bytes);
        payload := state.bytes + f.chunk;
      }
    }
  }

  /**
   * Soundness. An assembler that started idle answers with an invitation only when its most recent frames tile one
   * whole message, and the answer is the decoding of exactly those bytes: stale, reordered, duplicated or foreign
   * fragments never contribute.
   */
  lemma {:induction false} InviteOnlyFromTiledFrames(
    accept: Acceptor, done: Completion, state: Assembly, seen: seq<seq<Byte>>, frames: seq<seq<Byte>>)
    returns (k: nat, f: Fragment, payload: seq<Byte>)
    requires Steps(accept, done) && HoldsTail(state, seen) && frames != []
    requires Feed(accept, state, frames).1[|frames| - 1].Some?
    ensures k < |seen + frames| && Tiles((seen + frames)[k..], f.requestID, f.total, payload) && |payload| == f.total
    ensures Feed(accept, state, frames).1[|frames| - 1] == done(f.requestID, payload)
    decreases |frames|
  {
    k, f, payload := AcceptHoldsTail(done, state, seen, frames[0]);
    var after := accept(state, frames[0]);
    assert after == Accept(done, state, frames[0]);
    if |frames| == 1 {
      assert frames == [frames[0]];
    } else {
      k, f, payload := InviteOnlyFromTiledFrames(accept, done, after.0, seen + [frames[0]], frames[1..]);
      assert seen + [frames[0]] + frames[1..] == seen + frames;
    }
  }
}
