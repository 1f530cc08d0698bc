/**
 * Reading an invitation from another phone: the READ BINARY commands (ISO/IEC 7816-4), the loop that collects the
 * NDEF file in chunks, and the check that the bytes are one whole NDEF record (section 3.2 of NDEF 1.0).
 */
module NfcRead {
  import opened Prelude
  import opened Text
  import opened NfcCarrier

  datatype ReadError =
    | InvalidCommand
    | CommandFailed(status: int)
    | UnexpectedResponseLength(expected: int, actual: int)
    | InvalidNdefLength
    | MalformedNdefMessage
    | Contract(error: ContractError)

  const MAXIMUM_READ_BYTES := 255

  datatype Response = Response(data: seq<Byte>, status: int)

  /** The phone on the other side, as a function from command bytes to response. */
  type Tag = seq<Byte> -> Response

  // ---------------------------------------------------------------------------------------------
  // Commands
  // ---------------------------------------------------------------------------------------------

  function ReadBinary(offset: int, length: int): (r: Result<seq<Byte>, ReadError>)
    ensures r.Ok? <==> 0 <= offset <= 0xFFFF && 1 <= length <= MAXIMUM_READ_BYTES
  {
    if 0 <= offset <= 0xFFFF && 1 <= length <= MAXIMUM_READ_BYTES
    then Ok([0x00, 0xB0, offset / 256 % 256, offset % 256, length])
    else Err(InvalidCommand)
  }

  function ValidatedResponse(response: Response, expected: int): Result<seq<Byte>, ReadError> {
    if response.status != 0x9000 then Err(CommandFailed(response.status))
    else if |response.data| != expected then Err(UnexpectedResponseLength(expected, |response.data|))
    else Ok(response.data)
  }

  function NdefLength(data: seq<Byte>): (r: Result<nat, ReadError>)
    ensures r.Ok? ==> 1 <= r.value <= MAXIMUM_SERIALIZED_MESSAGE_BYTES
  {
    if |data| != 2 then Err(UnexpectedResponseLength(2, |data|))
    else
      var length := data[0] as int * 256 + data[1];
      if 1 <= length <= MAXIMUM_SERIALIZED_MESSAGE_BYTES then Ok(length) else Err(InvalidNdefLength)
  }

  // ---------------------------------------------------------------------------------------------
  // The chunk loop
  // ---------------------------------------------------------------------------------------------

  function ChunkLength(expected: nat, have: nat): int {
    if expected - have < MAXIMUM_READ_BYTES then expected - have else MAXIMUM_READ_BYTES
  }

  /** The (offset, length) pairs requested once `have` bytes have arrived, if every response is good. */
  function Requests(expected: nat, have: nat): seq<(nat, nat)>
    requires have <= expected
    decreases expected - have
  {
    if have == expected then []
    else
      var n := ChunkLength(expected, have);
      [(2 + have, n)] + Requests(expected, have + n)
  }

  /** Consecutive ranges that cover from..to without gap or overlap. */
  ghost predicate Tile(ranges: seq<(nat, nat)>, from: nat, to: nat)
    decreases |ranges|
  {
    if ranges == [] then from == to
    else ranges[0].0 == from && Tile(ranges[1..], from + ranges[0].1, to)
  }

  /** The commands tile bytes 2 to 2 + expected; every one is small enough and addressable, so none is refused. */
  lemma {:induction false} RequestsTile(expected: nat, have: nat)
    requires have <= expected <= MAXIMUM_SERIALIZED_MESSAGE_BYTES
    ensures Tile(Requests(expected, have), 2 + have, 2 + expected)
    ensures forall i :: 0 <= i < |Requests(expected, have)| ==>
              ReadBinary(Requests(expected, have)[i].0, Requests(expected, have)[i].1).Ok?
    decreases expected - have
  {
    if have < expected {
      RequestsTile(expected, have + ChunkLength(expected, have));
    }
  }

  /** The whole chain of reads, as a function of the tag. */
  function ReadFrom(tag: Tag, expected: nat, data: seq<Byte>): (r: Result<seq<Byte>, ReadError>)
    requires |data| <= expected
    ensures r.Ok? ==> |r.value| == expected
    decreases expected - |data|
  {
    if |data| == expected then Ok(data)
    else
      var n := ChunkLength(expected, |data|);
      match ReadBinary(2 + |data|, n)
      case Err(e) => Err(e)
      case Ok(command) =>
        match ValidatedResponse(tag(command), n)
        case Err(e) => Err(e)
        case Ok(chunk) => ReadFrom(tag, expected, data + chunk)
  }

  method ReadChunks(tag: Tag, expected: nat) returns (result: Result<seq<Byte>, ReadError>)
    requires expected <= MAXIMUM_SERIALIZED_MESSAGE_BYTES
    ensures result == ReadFrom(tag, expected, [])
    ensures result != Err(InvalidCommand)
  {
    var messageData: seq<Byte> := [];
    while |messageData| < expected
      invariant |messageData| <= expected
      invariant ReadFrom(tag, expected, messageData) == ReadFrom(tag, expected, [])
    {
      var chunkLength := ChunkLength(expected, |messageData|);
      var command := ReadBinary(2 + |messageData|, chunkLength);
      if command.Err? {
        assert false;
      }
      var response := ValidatedResponse(tag(command.value), chunkLength);
      if response.Err? {
        return Err(response.error);
      }
      messageData := messageData + response.value;
    }
    return Ok(messageData);
  }

  /** A tag that serves a file: READ BINARY inside the file returns those bytes with success. */
  ghost predicate Serves(tag: Tag, file: seq<Byte>) {
    forall offset: nat, length: nat ::
      offset + length <= |file| && ReadBinary(offset, length).Ok?
      ==> tag(ReadBinary(offset, length).value) == Response(file[offset..offset + length], 0x9000)
  }

  /** The command says where and how much: nothing about a read is lost in its five bytes. */
  lemma ReadBinarySays(offset: int, length: int)
    requires ReadBinary(offset, length).Ok?
    ensures var command := ReadBinary(offset, length).value;
            && |command| == 5 && command[0] == 0x00 && command[1] == 0xB0
            && command[2] as int * 256 + command[3] as int == offset && command[4] as int == length
  {
  }

  /** The bytes a phone presents: what the command asks for, if the file has it. */
  function Present(file: seq<Byte>, command: seq<Byte>): Response {
    if |command| != 5 then Response([], 0x6700)
    else
      var offset, length := command[2] as int * 256 + command[3] as int, command[4] as int;
      if offset + length <= |file| then Response(file[offset..offset + length], 0x9000) else Response([], 0x6B00)
  }

  /** Every file can be served. */
  lemma EveryFileCanBeServed(file: seq<Byte>)
    ensures Serves((command: seq<Byte>) => Present(file, command), file)
  {
    var tag: Tag := (command: seq<Byte>) => Present(file, command);
    forall offset: nat, length: nat | offset + length <= |file| && ReadBinary(offset, length).Ok?
      ensures tag(ReadBinary(offset, length).value) == Response(file[offset..offset + length], 0x9000)
    {
      ReadBinarySays(offset, length);
    }
  }

  /** Reading a served file returns exactly its bytes after the two length bytes. */
  lemma {:induction false} HonestRead(tag: Tag, file: seq<Byte>, expected: nat, have: nat)
    requires Serves(tag, file) && have <= expected <= MAXIMUM_SERIALIZED_MESSAGE_BYTES && 2 + expected <= |file|
    ensures ReadFrom(tag, expected, file[2..2 + have]) == Ok(file[2..2 + expected])
    decreases expected - have
  {
    if have < expected {
      var n := ChunkLength(expected, have);
      assert file[2..2 + have] + file[2 + have..2 + have + n] == file[2..2 + (have + n)];
      assert tag(ReadBinary(2 + have, n).value) == Response(file[2 + have..2 + have + n], 0x9000);
      HonestRead(tag, file, expected, have + n);
    }
  }

  // ---------------------------------------------------------------------------------------------
  // The single-record envelope
  // ---------------------------------------------------------------------------------------------

  /** One well-known NDEF record that begins and ends its message. */
  datatype Layout = Layout(short: bool, hasId: bool, recordType: seq<Byte>, identifier: seq<Byte>, payload: seq<Byte>)

  predicate Representable(l: Layout) {
    && |l.recordType| < 256 && |l.identifier| < 256 && (!l.hasId ==> l.identifier == [])
    && |l.payload| < (if l.short then 256 else 0x1_0000_0000)
  }

  function LayoutHeader(l: Layout): Byte {
    0xC1 + (if l.short then 0x10 else 0) + (if l.hasId then 0x08 else 0)
  }

  /** Header, type length, payload length, optional identifier length, then type, identifier and payload. */
  function Serialize(l: Layout): seq<Byte>
    requires Representable(l)
  {
    [LayoutHeader(l), |l.recordType|] + BigEndian(|l.payload|, if l.short then 1 else 4)
    + (if l.hasId then [|l.identifier|] else []) + l.recordType + l.identifier + l.payload
  }

  /** The header flags: message begin and end, not chunked, well-known type. */
  predicate HeaderAccepted(header: Byte) {
    header / 128 == 1 && header / 64 % 2 == 1 && header / 32 % 2 == 0 && header % 8 == 1
  }

  predicate IsShort(header: Byte) {
    header / 16 % 2 == 1
  }

  predicate HasIdentifier(header: Byte) {
    header / 8 % 2 == 1
  }

  lemma HeaderFlags(header: Byte)
    ensures HeaderAccepted(header)
       <==> header == 0xC1 + (if IsShort(header) then 0x10 else 0) + (if HasIdentifier(header) then 0x08 else 0)
  {
  }

  /** Where the variable part starts: after header, type length, payload length and identifier length. */
  function FixedSize(header: Byte): nat {
    2 + (if IsShort(header) then 1 else 4) + (if HasIdentifier(header) then 1 else 0)
  }

  /** The lengths announced in the fixed part account for every remaining byte. */
  predicate Tiled(bytes: seq<Byte>) {
    |bytes| >= 3 && HeaderAccepted(bytes[0])
    && |bytes| >= FixedSize(bytes[0])
    && (var at := if IsShort(bytes[0]) then 3 else 6;
        var payloadLength := FromBigEndian(bytes[2..at]);
        var identifierLength := if HasIdentifier(bytes[0]) then bytes[at] as int else 0;
        FixedSize(bytes[0]) + bytes[1] + identifierLength + payloadLength == |bytes|)
  }

  /** The cursor walk of the envelope check, guard by guard. */
  method ValidateEnvelope(bytes: seq<Byte>) returns (ok: bool)
    ensures ok <==> Tiled(bytes)
  {
    if |bytes| < 3 { return false; }
    var header := bytes[0];
    if !HeaderAccepted(header) { return false; }
    var typeLength := bytes[1] as int;
    var cursor := 2;
    var payloadLength: int;
    if IsShort(header) {
      payloadLength := bytes[cursor];
      assert bytes[2..3] == [bytes[2]] && FromBigEndian([bytes[2]]) == bytes[2];
      cursor := cursor + 1;
    } else {
      if |bytes| - cursor < 4 { return false; }
      payloadLength := bytes[cursor] as int * 0x100_0000 + bytes[cursor + 1] as int * 0x1_0000
        + bytes[cursor + 2] as int * 0x100 + bytes[cursor + 3];
      FourBytes(bytes[2..6]);
      assert FromBigEndian(bytes[2..6]) == payloadLength;
      cursor := cursor + 4;
    }
    var identifierLength := 0;
    if HasIdentifier(header) {
      if cursor >= |bytes| { return false; }
      identifierLength := bytes[cursor];
      cursor := cursor + 1;
    }
    if typeLength > |bytes| - cursor { return false; }
    cursor := cursor + typeLength;
    if identifierLength > |bytes| - cursor { return false; }
    cursor := cursor + identifierLength;
    return payloadLength == |bytes| - cursor;
  }

  lemma FourBytes(b: seq<Byte>)
    requires |b| == 4
    ensures FromBigEndian(b) == b[0] as int * 0x100_0000 + b[1] as int * 0x1_0000 + b[2] as int * 0x100 + b[3]
  {
    var b3, b2, b1 := b[..3], b[..2], b[..1];
    assert b3[..2] == b2 && b2[..1] == b1 && b1[..0] == [];
    assert FromBigEndian(b1) == b[0];
    assert FromBigEndian(b2) == b[0] as int * 0x100 + b[1];
    assert FromBigEndian(b3) == b[0] as int * 0x1_0000 + b[1] as int * 0x100 + b[2];
  }

  /** The record whose fields the announced lengths cut out. */
  function Fields(bytes: seq<Byte>): Layout
    requires Tiled(bytes)
  {
    var short, hasId := IsShort(bytes[0]), HasIdentifier(bytes[0]);
    var typeAt := FixedSize(bytes[0]);
    var idAt := typeAt + bytes[1];
    var payloadAt := idAt + (if hasId then bytes[typeAt - 1] as int else 0);
    Layout(short, hasId, bytes[typeAt..idAt], bytes[idAt..payloadAt], bytes[payloadAt..])
  }

  lemma {:induction false} BigEndianOfValue(b: seq<Byte>)
    ensures BigEndian(FromBigEndian(b), |b|) == b
  {
    if b != [] {
      BigEndianOfValue(b[..|b| - 1]);
      assert b[..|b| - 1] + [b[|b| - 1]] == b;
    }
  }

  lemma Cuts(s: seq<Byte>, a: nat, b: nat, c: nat, d: nat)
    requires a <= b <= c <= d <= |s|
    ensures s[..a] + s[a..b] + s[b..c] + s[c..d] + s[d..] == s
  {
    assert s[..a] + s[a..b] == s[..b];
    assert s[..b] + s[b..c] == s[..c];
    assert s[..c] + s[c..d] == s[..d];
  }

  lemma FixedPart(bytes: seq<Byte>, at: nat)
    requires |bytes| >= at && (at == 3 || at == 6)
    ensures [bytes[0], bytes[1]] + BigEndian(FromBigEndian(bytes[2..at]), at - 2) == bytes[..at]
    ensures FromBigEndian(bytes[2..at]) < if at == 3 then 256 else 0x1_0000_0000
  {
    BigEndianOfValue(bytes[2..at]);
    FromBigEndianBound(bytes[2..at]);
    assert Power256(4) == 0x1_0000_0000 && Power256(1) == 256;
    assert [bytes[0], bytes[1]] + bytes[2..at] == bytes[..at];
  }

  /** What the check accepts is a serialised record, nothing missing and nothing extra. */
  lemma AcceptedIsSerialized(bytes: seq<Byte>)
    requires Tiled(bytes)
    ensures Representable(Fields(bytes)) && Serialize(Fields(bytes)) == bytes
  {
    var l := Fields(bytes);
    var at := if l.short then 3 else 6;
    var typeAt := FixedSize(bytes[0]);
    var idAt := typeAt + bytes[1];
    HeaderFlags(bytes[0]);
    FixedPart(bytes, at);
    Cuts(bytes, at, typeAt, idAt, idAt + |l.identifier|);
    assert bytes[at..typeAt] == if l.hasId then [bytes[at]] else [];
  }

  lemma Pieces(a: seq<Byte>, b: seq<Byte>, c: seq<Byte>, d: seq<Byte>, e: seq<Byte>)
    ensures var s := a + b + c + d + e; var at := |a| + |b|;
            && s[..|a|] == a && s[|a|..at] == b && s[at..at + |c|] == c
            && s[at + |c|..at + |c| + |d|] == d && s[at + |c| + |d|..] == e
  {
  }

  /** Where the parts of a serialised record are. */
  ghost predicate PartsAt(bytes: seq<Byte>, l: Layout, width: nat, typeAt: nat) {
    var idAt := typeAt + |l.recordType|;
    && |bytes| == idAt + |l.identifier| + |l.payload| && typeAt == 2 + width + (if l.hasId then 1 else 0)
    && bytes[0] == LayoutHeader(l) && bytes[1] == |l.recordType|
    && bytes[2..2 + width] == BigEndian(|l.payload|, width)
    && (l.hasId ==> bytes[2 + width] == |l.identifier|)
    && bytes[typeAt..idAt] == l.recordType && bytes[idAt..idAt + |l.identifier|] == l.identifier
    && bytes[idAt + |l.identifier|..] == l.payload
  }

  lemma SerializedParts(l: Layout, width: nat, typeAt: nat)
    requires Representable(l) && width == (if l.short then 1 else 4) && typeAt == 2 + width + if l.hasId then 1 else 0
    ensures PartsAt(Serialize(l), l, width, typeAt)
  {
    var fixed := [LayoutHeader(l), |l.recordType|] + BigEndian(|l.payload|, width);
    var idLength := if l.hasId then [|l.identifier|] else [];
    Pieces(fixed, idLength, l.recordType, l.identifier, l.payload);
    var bytes := Serialize(l);
    assert bytes == fixed + idLength + l.recordType + l.identifier + l.payload;
    assert bytes[2..2 + width] == bytes[..2 + width][2..] == BigEndian(|l.payload|, width);
  }

  lemma LayoutHeaderFlags(l: Layout)
    ensures HeaderAccepted(LayoutHeader(l)) && IsShort(LayoutHeader(l)) == l.short
         && HasIdentifier(LayoutHeader(l)) == l.hasId
  {
  }

  lemma PartsAreAccepted(bytes: seq<Byte>, l: Layout, width: nat, typeAt: nat)
    requires Representable(l) && width == (if l.short then 1 else 4) && PartsAt(bytes, l, width, typeAt)
    requires FromBigEndian(BigEndian(|l.payload|, width)) == |l.payload|
    ensures Tiled(bytes) && Fields(bytes) == l
  {
    LayoutHeaderFlags(l);
    assert FixedSize(bytes[0]) == typeAt;
  }

  /** Every representable record passes the check and its own fields come back. */
  lemma SerializedIsAccepted(l: Layout)
    requires Representable(l)
    ensures Tiled(Serialize(l)) && Fields(Serialize(l)) == l
  {
    var width := if l.short then 1 else 4;
    var typeAt := 2 + width + if l.hasId then 1 else 0;
    assert Power256(4) == 0x1_0000_0000 && Power256(1) == 256;
    BigEndianRoundTrip(|l.payload|, width);
    SerializedParts(l, width, typeAt);
    PartsAreAccepted(Serialize(l), l, width, typeAt);
  }

  /**
   * The envelope check accepts exactly the serialised single records: the announced type, identifier and payload
   * lengths tile the data.
   */
  lemma EnvelopeExact(bytes: seq<Byte>)
    ensures Tiled(bytes) <==> exists l: Layout :: Representable(l) && Serialize(l) == bytes
  {
    if Tiled(bytes) {
      AcceptedIsSerialized(bytes);
    }
    if l: Layout :| Representable(l) && Serialize(l) == bytes {
      SerializedIsAccepted(l);
    }
  }

  // ---------------------------------------------------------------------------------------------
  // From phone to phone
  // ---------------------------------------------------------------------------------------------

  /** The parsed record handed to the invitation codec. */
  function RecordOf(l: Layout): Record {
    Record(true, l.recordType, l.identifier, l.payload)
  }

  /** Length and chunks: the data a tag yields. */
  function ReadData(tag: Tag): Result<seq<Byte>, ReadError> {
    match ValidatedResponse(tag([0x00, 0xB0, 0x00, 0x00, 0x02]), 2)
    case Err(e) => Err(e)
    case Ok(lengthBytes) =>
      match NdefLength(lengthBytes)
      case Err(e) => Err(e)
      case Ok(length) => ReadFrom(tag, length, [])
  }

  /** Envelope and codec: the invitation in the data. */
  function InvitationIn(data: seq<Byte>): Result<string, ReadError> {
    if !Tiled(data) then Err(MalformedNdefMessage)
    else match InvitationFromMessages([[RecordOf(Fields(data))]])
         case Err(e) => Err(Contract(e))
         case Ok(invitation) => Ok(invitation)
  }

  /** The invitation a tag yields, or why it does not. */
  function ReadInvitation(tag: Tag): Result<string, ReadError> {
    match ReadData(tag)
    case Err(e) => Err(e)
    case Ok(data) => InvitationIn(data)
  }

  /** The long-form record a presenting phone serves for an invitation. */
  function PresentedLayout(invitation: string): Layout
    requires MessageFor(invitation).Ok?
  {
    Layout(false, false, [0x55], [], MessageFor(invitation).value[0].payload)
  }

  /** The data is the serialised record of the invitation. */
  predicate Presents(invitation: string, data: seq<Byte>) {
    && MessageFor(invitation).Ok? && Representable(PresentedLayout(invitation))
    && data == Serialize(PresentedLayout(invitation))
  }

  /** Every valid invitation has such data, and it fits the length field and the reader's limit. */
  lemma PresentedFits(invitation: string)
    requires ValidatedInvitation(invitation).Ok?
    ensures MessageFor(invitation).Ok? && Representable(PresentedLayout(invitation))
    ensures 1 <= |Serialize(PresentedLayout(invitation))| <= MAXIMUM_SERIALIZED_MESSAGE_BYTES < 0xFFFF
  {
    var uri := CarrierURI(invitation).value;
    CarrierIsPrintable(invitation);
    AsciiIsUtf8(uri);
    PrefixIsPrintable();
  }

  lemma LengthRead(tag: Tag, file: seq<Byte>)
    requires Serves(tag, file) && |file| >= 2
    ensures ValidatedResponse(tag([0x00, 0xB0, 0x00, 0x00, 0x02]), 2) == Ok(file[0..2])
  {
    var command := ReadBinary(0, 2).value;
    assert command == [0x00, 0xB0, 0x00, 0x00, 0x02];
    assert tag(ReadBinary(0, 2).value) == Response(file[0..0 + 2], 0x9000);
  }

  lemma TwoBytes(n: nat)
    requires n < 65536
    ensures BigEndian(n, 2) == [n / 256, n % 256]
  {
    assert n / 256 < 256;
    assert BigEndian(n / 256, 1) == [n / 256];
  }

  lemma LengthBytes(n: nat)
    requires 1 <= n <= MAXIMUM_SERIALIZED_MESSAGE_BYTES < 0xFFFF
    ensures NdefLength(BigEndian(n, 2)) == Ok(n)
  {
    TwoBytes(n);
  }

  lemma ServedDataIsRead(tag: Tag, head: seq<Byte>, data: seq<Byte>)
    requires |head| == 2 && NdefLength(head) == Ok(|data|) && Serves(tag, head + data)
    ensures ReadData(tag) == Ok(data)
  {
    var file := head + data;
    LengthRead(tag, file);
    assert file[0..2] == head;
    HonestRead(tag, file, |data|, 0);
    assert file[2..2] == [] && file[2..2 + |data|] == data;
  }

  lemma PresentedDataIsInvitation(invitation: string, data: seq<Byte>)
    requires ValidatedInvitation(invitation).Ok? && Presents(invitation, data)
    ensures InvitationIn(data) == Ok(invitation)
  {
    SerializedIsAccepted(PresentedLayout(invitation));
    MessageRoundTrip(invitation);
    assert [RecordOf(PresentedLayout(invitation))] == MessageFor(invitation).value;
  }

  /**
   * End to end: a phone serving any valid invitation, up to the largest, is read back as exactly that invitation.
   * No length, chunk, offset or envelope guard on the way rejects it.
   */
  lemma PresentedInvitationIsRead(tag: Tag, invitation: string, data: seq<Byte>)
    requires ValidatedInvitation(invitation).Ok? && Presents(invitation, data)
         && Serves(tag, BigEndian(|data|, 2) + data)
    ensures ReadInvitation(tag) == Ok(invitation)
  {
    PresentedFits(invitation);
    LengthBytes(|data|);
    ServedDataIsRead(tag, BigEndian(|data|, 2), data);
    PresentedDataIsInvitation(invitation, data);
  }
}
