/**
 * The NFC carrier link: an invitation in unpadded base64url (sections 3.2, 3.5 and 5 of RFC 4648) after a fixed
 * prefix, and the URI record that holds it.
 */
module NfcCarrier {
  import opened Prelude
  import opened Text

  datatype ContractError =
    | MessageCount | RecordCount | RecordType | MalformedURI | MalformedCarrier | UnsupportedInvitation
    | OversizedInvitation

  const MAXIMUM_INVITATION_BYTES := 8211
  const CARRIER_PREFIX := "https://ece4410j-nuub.github.io/nfc/v1/#"
  const MAXIMUM_ENCODED_CHARACTERS := (MAXIMUM_INVITATION_BYTES + 2) / 3 * 4
  const MAXIMUM_CARRIER_BYTES := |CARRIER_PREFIX| + MAXIMUM_ENCODED_CHARACTERS
  const MAXIMUM_SERIALIZED_MESSAGE_BYTES := MAXIMUM_CARRIER_BYTES + 8

  // ---------------------------------------------------------------------------------------------
  // Base 64
  // ---------------------------------------------------------------------------------------------

  type Sextet = v: int | 0 <= v < 64

  function Digit(v: Sextet): (c: char) {
    if v < 26 then ('A' as int + v) as char
    else if v < 52 then ('a' as int + v - 26) as char
    else if v < 62 then ('0' as int + v - 52) as char
    else if v == 62 then '+' else '/'
  }

  predicate IsDigit(c: char) {
    'A' <= c <= 'Z' || 'a' <= c <= 'z' || '0' <= c <= '9' || c == '+' || c == '/'
  }

  function DigitValue(c: char): (v: Sextet)
    requires IsDigit(c)
  {
    if 'A' <= c <= 'Z' then c as int - 'A' as int
    else if 'a' <= c <= 'z' then c as int - 'a' as int + 26
    else if '0' <= c <= '9' then c as int - '0' as int + 52
    else if c == '+' then 62 else 63
  }

  /** One group of up to three octets: its digits, without padding. */
  function GroupDigits(b: seq<Byte>): (r: string)
    requires 1 <= |b| <= 3
    ensures |r| == |b| + 1 && forall i :: 0 <= i < |r| ==> IsDigit(r[i])
  {
    var v := Values(b);
    seq(|v|, i requires 0 <= i < |v| => Digit(v[i]))
  }

  /** Standard base64 with padding. */
  function Base64Encode(b: seq<Byte>): string {
    if b == [] then []
    else if |b| == 1 then GroupDigits(b) + "=="
    else if |b| == 2 then GroupDigits(b) + "="
    else GroupDigits(b[..3]) + Base64Encode(b[3..])
  }

  /** The octets of one group of two to four digits; spare low-order bits are ignored. */
  function GroupBytes(d: string): (r: seq<Byte>)
    requires 2 <= |d| <= 4 && forall i :: 0 <= i < |d| ==> IsDigit(d[i])
    ensures |r| == |d| - 1
  {
    Join(seq(|d|, i requires 0 <= i < |d| => DigitValue(d[i])))
  }

  predicate AllDigits(s: string) {
    forall i :: 0 <= i < |s| ==> IsDigit(s[i])
  }

  /** Foundation's decoder: groups of four, padding only at the very end, no check of the spare bits. */
  function Base64Decode(s: string): Option<seq<Byte>> {
    if s == [] then Some([])
    else if |s| < 4 then None
    else if |s| == 4 && s[2..] == "==" then if AllDigits(s[..2]) then Some(GroupBytes(s[..2])) else None
    else if |s| == 4 && s[3..] == "=" then if AllDigits(s[..3]) then Some(GroupBytes(s[..3])) else None
    else if !AllDigits(s[..4]) then None
    else match Base64Decode(s[4..])
         case None => None
         case Some(rest) => Some(GroupBytes(s[..4]) + rest)
  }

  lemma DigitRoundTrip(v: Sextet)
    ensures IsDigit(Digit(v)) && DigitValue(Digit(v)) == v
  {
  }

  /** The octets given by the values of two to four digits. */
  function Join(v: seq<Sextet>): (r: seq<Byte>)
    requires 2 <= |v| <= 4
    ensures |r| == |v| - 1
  {
    var a, b: int := v[0], v[1];
    var first := a * 4 + b / 16;
    if |v| == 2 then [first]
    else
      var c: int := v[2];
      var second := b % 16 * 16 + c / 4;
      if |v| == 3 then [first, second] else [first, second, c % 4 * 64 + v[3]]
  }

  /** The values of the digits of one group. */
  function Values(b: seq<Byte>): (r: seq<Sextet>)
    requires 1 <= |b| <= 3
    ensures |r| == |b| + 1
  {
    if |b| == 1 then [b[0] / 4, b[0] % 4 * 16]
    else if |b| == 2 then [b[0] / 4, b[0] % 4 * 16 + b[1] / 16, b[1] % 16 * 4]
    else [b[0] / 4, b[0] % 4 * 16 + b[1] / 16, b[1] % 16 * 4 + b[2] / 64, b[2] % 64]
  }

  lemma JoinValues(b: seq<Byte>)
    requires 1 <= |b| <= 3
    ensures Join(Values(b)) == b
  {
    assert (b[0] % 4 * 16) / 16 == b[0] % 4 && (b[0] % 4 * 16) % 16 == 0;
    if |b| >= 2 {
      Shifted(b[0] % 4, 16, b[1] / 16);
      assert (b[1] % 16 * 4) / 4 == b[1] % 16 && (b[1] % 16 * 4) % 4 == 0;
    }
    if |b| == 3 { Shifted(b[1] % 16, 4, b[2] / 64); }
  }

  lemma Shifted(high: nat, unit: nat, low: nat)
    requires low < unit && (unit == 4 || unit == 16)
    ensures (high * unit + low) / unit == high && (high * unit + low) % unit == low
  {
  }

  lemma GroupRoundTrip(b: seq<Byte>)
    requires 1 <= |b| <= 3
    ensures GroupBytes(GroupDigits(b)) == b
  {
    JoinValues(b);
    var d := GroupDigits(b);
    var back := seq(|d|, i requires 0 <= i < |d| => DigitValue(d[i]));
    forall i | 0 <= i < |d|
      ensures back[i] == Values(b)[i]
    {
      DigitRoundTrip(Values(b)[i]);
    }
    assert back == Values(b);
  }

  lemma {:induction false} Base64RoundTrip(b: seq<Byte>)
    ensures Base64Decode(Base64Encode(b)) == Some(b)
  {
    if b == [] {
    } else if |b| < 3 {
      var digits, text := GroupDigits(b), Base64Encode(b);
      GroupRoundTrip(b);
      assert text[..|b| + 1] == digits;
      assert |b| == 1 ==> text[2..] == "==";
      assert |b| == 2 ==> text[3..] == "=" && text[2] == digits[2];
    } else {
      var digits, rest := GroupDigits(b[..3]), Base64Encode(b[3..]);
      GroupRoundTrip(b[..3]);
      Base64RoundTrip(b[3..]);
      assert (digits + rest)[..4] == digits && (digits + rest)[4..] == rest;
      assert digits[3] != '=';
      assert (digits + rest)[3] == digits[3];
      assert b[..3] + b[3..] == b;
    }
  }

  // ---------------------------------------------------------------------------------------------
  // The URL-safe unpadded form
  // ---------------------------------------------------------------------------------------------

  /** `replacingOccurrences` of one character. */
  function Replace(s: string, from: char, to: string): string {
    if s == [] then [] else (if s[0] == from then to else [s[0]]) + Replace(s[1..], from, to)
  }

  lemma {:induction false} ReplaceAppend(s: string, t: string, from: char, to: string)
    ensures Replace(s + t, from, to) == Replace(s, from, to) + Replace(t, from, to)
  {
    if s == [] {
      assert s + t == t;
    } else {
      ReplaceAppend(s[1..], t, from, to);
      assert (s + t)[1..] == s[1..] + t && (s + t)[0] == s[0];
      var first, rest, last := if s[0] == from then to else [s[0]], Replace(s[1..], from, to), Replace(t, from, to);
      assert first + (rest + last) == (first + rest) + last;
    }
  }

  function Base64Url(b: seq<Byte>): string {
    Replace(Replace(Replace(Base64Encode(b), '+', "-"), '/', "_"), '=', "")
  }

  function Padding(n: nat): string {
    if n % 4 == 2 then "==" else if n % 4 == 3 then "=" else if n % 4 == 1 then "===" else ""
  }

  function FromUrl(encoded: string): string {
    var text := Replace(Replace(encoded, '-', "+"), '_', "/");
    text + Padding(|text|)
  }

  function UrlDigit(c: char): char {
    if c == '+' then '-' else if c == '/' then '_' else c
  }

  function UrlDigits(s: string): (r: string)
    ensures |r| == |s|
  {
    seq(|s|, i requires 0 <= i < |s| => UrlDigit(s[i]))
  }

  predicate IsUrlDigit(c: char) {
    'A' <= c <= 'Z' || 'a' <= c <= 'z' || '0' <= c <= '9' || c == '-' || c == '_'
  }

  lemma {:induction false} ReplaceToUrl(s: string)
    requires AllDigits(s)
    ensures Replace(Replace(Replace(s, '+', "-"), '/', "_"), '=', "") == UrlDigits(s)
  {
    if s != [] {
      ReplaceToUrl(s[1..]);
      var c, d := s[0], UrlDigit(s[0]);
      var tail := Replace(s[1..], '+', "-");
      assert Replace(s, '+', "-") == [if c == '+' then '-' else c] + tail;
      ReplaceAppend([if c == '+' then '-' else c], tail, '/', "_");
      ReplaceAppend([d], Replace(tail, '/', "_"), '=', "");
      assert Replace([if c == '+' then '-' else c], '/', "_") == [d];
      assert Replace([d], '=', "") == [d];
      assert UrlDigits(s) == [d] + UrlDigits(s[1..]);
    }
  }

  lemma {:induction false} ReplaceFromUrl(s: string)
    requires AllDigits(s)
    ensures Replace(Replace(UrlDigits(s), '-', "+"), '_', "/") == s
  {
    if s != [] {
      ReplaceFromUrl(s[1..]);
      var c, d := s[0], UrlDigit(s[0]);
      var url := UrlDigits(s);
      assert url[0] == d && url[1..] == UrlDigits(s[1..]);
      var first := if d == '-' then '+' else d;
      assert Replace(url, '-', "+") == [first] + Replace(url[1..], '-', "+");
      ReplaceAppend([first], Replace(url[1..], '-', "+"), '_', "/");
      assert Replace([first], '_', "/") == [c];
    }
  }

  /** The digits of b without padding: what the three replacements leave. */
  function Digits(b: seq<Byte>): (r: string)
    ensures AllDigits(r)
  {
    if b == [] then [] else if |b| < 3 then GroupDigits(b) else GroupDigits(b[..3]) + Digits(b[3..])
  }

  lemma PaddingShifts(head: string, tail: string)
    requires |head| == 4
    ensures head + (tail + Padding(|tail|)) == head + tail + Padding(|head + tail|)
  {
  }

  lemma {:induction false} DigitsLength(b: seq<Byte>)
    ensures |Digits(b)| == |b| / 3 * 4 + (if |b| % 3 == 0 then 0 else |b| % 3 + 1)
  {
    if |b| >= 3 {
      DigitsLength(b[3..]);
    }
  }

  lemma {:induction false} EncodeIsDigitsAndPadding(b: seq<Byte>)
    ensures Base64Encode(b) == Digits(b) + Padding(|Digits(b)|)
  {
    if |b| >= 3 {
      EncodeIsDigitsAndPadding(b[3..]);
      PaddingShifts(GroupDigits(b[..3]), Digits(b[3..]));
    }
  }

  lemma PaddingVanishes(n: nat)
    ensures Replace(Replace(Replace(Padding(n), '+', "-"), '/', "_"), '=', "") == ""
  {
    var p := Padding(n);
    assert p == "" || p == "=" || p == "==" || p == "===";
    assert forall s :: s == "=" || s == "==" || s == "===" ==>
             Replace(s, '+', "-") == s && Replace(s, '/', "_") == s by {
      assert "=="[1..] == "=" && "==="[1..] == "==" && "="[1..] == "";
      assert "=" + "" == "=" && "=" + "=" == "==" && "=" + "==" == "===";
    }
    assert "=="[1..] == "=" && "==="[1..] == "==" && "="[1..] == "";
  }

  /** The encoder's text is the unpadded digits in the URL alphabet. */
  lemma Base64UrlIsUrlDigits(b: seq<Byte>)
    ensures Base64Url(b) == UrlDigits(Digits(b))
  {
    var d, p := Digits(b), Padding(|Digits(b)|);
    EncodeIsDigitsAndPadding(b);
    ReplaceAppend(d, p, '+', "-");
    ReplaceAppend(Replace(d, '+', "-"), Replace(p, '+', "-"), '/', "_");
    ReplaceAppend(Replace(Replace(d, '+', "-"), '/', "_"), Replace(Replace(p, '+', "-"), '/', "_"), '=', "");
    ReplaceToUrl(d);
    PaddingVanishes(|d|);
  }

  /** Undoing the alphabet and the padding, then decoding, gives the octets back. */
  lemma Base64UrlRoundTrip(b: seq<Byte>)
    ensures Base64Decode(FromUrl(Base64Url(b))) == Some(b)
    ensures |Base64Url(b)| == |b| / 3 * 4 + (if |b| % 3 == 0 then 0 else |b| % 3 + 1)
    ensures AllUrlDigits(Base64Url(b))
  {
    Base64UrlIsUrlDigits(b);
    ReplaceFromUrl(Digits(b));
    EncodeIsDigitsAndPadding(b);
    DigitsLength(b);
    Base64RoundTrip(b);
  }

  lemma GroupOfThree(a: Byte, b: Byte, c: Byte)
    ensures Base64Encode([a, b, c]) == GroupDigits([a, b, c])
    ensures GroupDigits([a, b, c])
         == [Digit(a / 4), Digit(a % 4 * 16 + b / 16), Digit(b % 16 * 4 + c / 64), Digit(c % 64)]
  {
    var v := Values([a, b, c]);
    assert v == [a / 4, a % 4 * 16 + b / 16, b % 16 * 4 + c / 64, c % 64];
    assert [a, b, c][..3] == [a, b, c] && [a, b, c][3..] == [];
    assert GroupDigits([a, b, c]) + [] == GroupDigits([a, b, c]);
  }

  /** Test vectors of section 10 of RFC 4648: "foo", "fo" and "f". */
  lemma StandardVectors()
    ensures Base64Encode([0x66, 0x6F, 0x6F]) == ['Z', 'm', '9', 'v']
    ensures Base64Encode([0x66, 0x6F]) == ['Z', 'm', '8', '=']
    ensures Base64Encode([0x66]) == ['Z', 'g', '=', '=']
  {
    GroupOfThree(0x66, 0x6F, 0x6F);
    assert Digit(25) == 'Z' && Digit(38) == 'm' && Digit(61) == '9' && Digit(47) == 'v' && Digit(60) == '8'
        && Digit(32) == 'g';
    assert Values([0x66, 0x6F]) == [25, 38, 60] && Values([0x66]) == [25, 32];
    assert GroupDigits([0x66, 0x6F]) == ['Z', 'm', '8'] && GroupDigits([0x66]) == ['Z', 'g'];
  }

  /** The alphabet of section 5: the last two digits are '-' and '_', the others are the standard ones. */
  lemma UrlAlphabet(v: Sextet)
    ensures UrlDigit(Digit(v)) == (if v == 62 then '-' else if v == 63 then '_' else Digit(v))
    ensures v < 62 ==> ('A' <= Digit(v) <= 'Z' || 'a' <= Digit(v) <= 'z' || '0' <= Digit(v) <= '9')
  {
  }

  // ---------------------------------------------------------------------------------------------
  // The carrier link
  // ---------------------------------------------------------------------------------------------

  predicate IsPrintable(s: string) {
    forall i :: 0 <= i < |s| ==> 0x21 <= s[i] as int <= 0x7E
  }

  predicate HasInvitationPrefix(s: string) {
    "envoix://invite/v2/" <= s || "envoix://room/" <= s
  }

  function ValidatedInvitation(invitation: string): (r: Result<seq<Byte>, ContractError>)
    ensures r.Ok? ==> IsAscii(invitation) && r.value == AsciiBytes(invitation) && IsPrintable(invitation)
    ensures r.Ok? ==> 0 < |invitation| <= MAXIMUM_INVITATION_BYTES
  {
    if !IsAscii(invitation) then Err(MalformedURI)
    else if |invitation| > MAXIMUM_INVITATION_BYTES then Err(OversizedInvitation)
    else if !IsPrintable(invitation)
            || !(("envoix://invite/v2/" < invitation) || ("envoix://room/" < invitation))
                  then Err(UnsupportedInvitation)
    else Ok(AsciiBytes(invitation))
  }

  function CarrierURI(invitation: string): Result<string, ContractError> {
    match ValidatedInvitation(invitation)
    case Err(e) => Err(e)
    case Ok(bytes) => Ok(CARRIER_PREFIX + Base64Url(bytes))
  }

  function InvitationFromCarrier(uri: string): Result<string, ContractError> {
    if !(CARRIER_PREFIX <= uri) then Err(UnsupportedInvitation)
    else if |uri| > MAXIMUM_CARRIER_BYTES then Err(OversizedInvitation)
    else
      var encoded := uri[|CARRIER_PREFIX|..];
      if encoded == [] || |encoded| > MAXIMUM_ENCODED_CHARACTERS
          || (exists i :: 0 <= i < |encoded| && !IsUrlDigit(encoded[i]))
         || |encoded| % 4 == 1 then Err(MalformedCarrier)
      else
        InvitationFromEncoded(encoded)
  }

  /** The part of the decoder after the length and alphabet guards. */
  function InvitationFromEncoded(encoded: string): Result<string, ContractError> {
    var decoded := Base64Decode(FromUrl(encoded));
    if decoded.None? || |decoded.value| > MAXIMUM_INVITATION_BYTES || Base64Url(decoded.value) != encoded then
      Err(MalformedCarrier)
    else
      var invitation := AsciiString(decoded.value);
      if invitation.None? then Err(MalformedCarrier)
      else match ValidatedInvitation(invitation.value)
           case Err(e) => Err(e)
           case Ok(_) => Ok(invitation.value)
  }

  lemma EncodedRoundTrip(invitation: string)
    requires ValidatedInvitation(invitation).Ok?
    ensures InvitationFromEncoded(Base64Url(AsciiBytes(invitation))) == Ok(invitation)
  {
    Base64UrlRoundTrip(AsciiBytes(invitation));
    AsciiStringRoundTrip(invitation);
  }

  predicate AllUrlDigits(s: string) {
    forall i :: 0 <= i < |s| ==> IsUrlDigit(s[i])
  }

  /** Past the prefix and the guards the decoder looks only at the encoded part. */
  lemma FromPrefixed(encoded: string)
    requires 0 < |encoded| <= MAXIMUM_ENCODED_CHARACTERS && |encoded| % 4 != 1 && AllUrlDigits(encoded)
    ensures InvitationFromCarrier(CARRIER_PREFIX + encoded) == InvitationFromEncoded(encoded)
  {
    var uri := CARRIER_PREFIX + encoded;
    assert uri[|CARRIER_PREFIX|..] == encoded && CARRIER_PREFIX <= uri;
  }

  lemma EncodedPassesGuards(bytes: seq<Byte>)
    requires 0 < |bytes| <= MAXIMUM_INVITATION_BYTES
    ensures var encoded := Base64Url(bytes);
            0 < |encoded| <= MAXIMUM_ENCODED_CHARACTERS && |encoded| % 4 != 1 && AllUrlDigits(encoded)
  {
    Base64UrlRoundTrip(bytes);
    EncodedFits(|bytes|);
  }

  lemma EncodedFits(n: nat)
    requires 0 < n <= MAXIMUM_INVITATION_BYTES
    ensures var length := n / 3 * 4 + (if n % 3 == 0 then 0 else n % 3 + 1);
            0 < length <= MAXIMUM_ENCODED_CHARACTERS && length % 4 != 1
  {
  }

  /** No size or alphabet guard of the decoder rejects what the encoder produced. */
  lemma CarrierRoundTrip(invitation: string)
    requires ValidatedInvitation(invitation).Ok?
    ensures CarrierURI(invitation).Ok?
    ensures InvitationFromCarrier(CarrierURI(invitation).value) == Ok(invitation)
  {
    EncodedPassesGuards(AsciiBytes(invitation));
    FromPrefixed(Base64Url(AsciiBytes(invitation)));
    EncodedRoundTrip(invitation);
  }

  lemma CarrierIsCanonical(uri: string)
    requires InvitationFromCarrier(uri).Ok?
    ensures CarrierURI(InvitationFromCarrier(uri).value) == Ok(uri)
  {
    var encoded := uri[|CARRIER_PREFIX|..];
    var invitation := InvitationFromCarrier(uri).value;
    var decoded := Base64Decode(FromUrl(encoded)).value;
    assert AsciiBytes(invitation) == decoded;
    assert uri == CARRIER_PREFIX + encoded;
  }

  /**
   * The carrier is a bijection: a link decodes to an invitation exactly when it is that invitation's link. Every valid
   * invitation is served, and no second spelling of a link (spare bits, padding, other alphabet) is ever accepted.
   */
  lemma CarrierBijection(uri: string, invitation: string)
    ensures InvitationFromCarrier(uri) == Ok(invitation) <==> CarrierURI(invitation) == Ok(uri)
  {
    if InvitationFromCarrier(uri) == Ok(invitation) {
      CarrierIsCanonical(uri);
    }
    if CarrierURI(invitation) == Ok(uri) {
      CarrierRoundTrip(invitation);
    }
  }

  lemma ShortLinkDecodes(d: string)
    requires |d| == 2 && AllDigits(d) && UrlDigits(d) == d
    ensures Base64Decode(FromUrl(d)) == Some(GroupBytes(d))
  {
    ReplaceFromUrl(d);
    var text := FromUrl(d);
    assert text == d + "==" && text[..2] == d && text[2..] == "==";
  }

  lemma GroupOfTwo(a: char, b: char)
    requires IsDigit(a) && IsDigit(b)
    ensures AllDigits([a, b]) && GroupBytes([a, b]) == [DigitValue(a) as int * 4 + DigitValue(b) as int / 16]
  {
  }

  lemma QDecodes(second: char)
    requires second == 'Q' || second == 'R'
    ensures Base64Decode(FromUrl(['Q', second])) == Some([0x41])
  {
    var d := ['Q', second];
    GroupOfTwo('Q', second);
    assert UrlDigits(d) == d;
    ShortLinkDecodes(d);
  }

  /** The re-encoding test carries the canonicality: the plain decoder takes two spellings of one octet. */
  lemma DecoderAloneIsNotCanonical()
    ensures Base64Decode(FromUrl(['Q', 'Q'])) == Base64Decode(FromUrl(['Q', 'R'])) == Some([0x41])
  {
    QDecodes('Q');
    QDecodes('R');
  }

  // ---------------------------------------------------------------------------------------------
  // The NDEF message
  // ---------------------------------------------------------------------------------------------

  datatype Record = Record(wellKnown: bool, recordType: seq<Byte>, identifier: seq<Byte>, payload: seq<Byte>)

  type Message = seq<Record>

  function MessageFor(invitation: string): Result<Message, ContractError> {
    match CarrierURI(invitation)
    case Err(e) => Err(e)
    case Ok(uri) => Ok([Record(true, [0x55], [], [0] + EncodeUtf8(uri))])
  }

  /** The text of a URI record of the one supported shape. */
  function RecordText(record: Record): Result<string, ContractError> {
    if !record.wellKnown || record.recordType != [0x55] || record.identifier != [] || record.payload == []
       || record.payload[0] != 0 then Err(RecordType)
    else
      var bytes := record.payload[1..];
      if |bytes| > MAXIMUM_CARRIER_BYTES then Err(OversizedInvitation)
      else match AsciiString(bytes)
           case None => Err(MalformedURI)
           case Some(uri) => Ok(uri)
  }

  function InvitationFromRecord(record: Record): Result<string, ContractError> {
    match RecordText(record)
    case Err(e) => Err(e)
    case Ok(uri) => InvitationFromURI(uri)
  }

  function InvitationFromURI(uri: string): Result<string, ContractError> {
    if !IsPrintable(uri) then Err(MalformedURI)
    else if HasInvitationPrefix(uri) then
      (match ValidatedInvitation(uri)
       case Err(e) => Err(e)
       case Ok(_) => Ok(uri))
    else InvitationFromCarrier(uri)
  }

  lemma URIAccepts(uri: string, invitation: string)
    requires InvitationFromURI(uri) == Ok(invitation)
    ensures ValidatedInvitation(invitation).Ok?
    ensures uri == invitation || CarrierURI(invitation) == Ok(uri)
  {
    if !HasInvitationPrefix(uri) { CarrierIsCanonical(uri); }
  }

  lemma URIRoundTrip(invitation: string)
    requires ValidatedInvitation(invitation).Ok?
    ensures CarrierURI(invitation).Ok? && InvitationFromURI(CarrierURI(invitation).value) == Ok(invitation)
  {
    CarrierIsPrintable(invitation);
    CarrierRoundTrip(invitation);
  }

  function InvitationFromMessages(messages: seq<Message>): Result<string, ContractError> {
    if |messages| != 1 then Err(MessageCount)
    else if |messages[0]| != 1 then Err(RecordCount)
    else InvitationFromRecord(messages[0][0])
  }

  lemma PrefixIsPrintable()
    ensures IsPrintable(CARRIER_PREFIX) && CARRIER_PREFIX[0] == 'h' && |CARRIER_PREFIX| == 40
  {
  }

  lemma PrintableAppend(s: string, t: string)
    requires IsPrintable(s) && IsPrintable(t)
    ensures IsPrintable(s + t) && IsAscii(s + t)
  {
  }

  lemma CarrierIsPrintable(invitation: string)
    requires ValidatedInvitation(invitation).Ok?
    ensures var uri := CarrierURI(invitation).value;
            IsAscii(uri) && IsPrintable(uri) && !HasInvitationPrefix(uri) && |uri| <= MAXIMUM_CARRIER_BYTES
  {
    var bytes := AsciiBytes(invitation);
    Base64UrlRoundTrip(bytes);
    PrefixIsPrintable();
    PrintableAppend(CARRIER_PREFIX, Base64Url(bytes));
    assert CarrierURI(invitation).value[0] == 'h';
  }

  /** The message written for an invitation reads back as that invitation. */
  lemma MessageRoundTrip(invitation: string)
    requires ValidatedInvitation(invitation).Ok?
    ensures MessageFor(invitation).Ok?
    ensures InvitationFromMessages([MessageFor(invitation).value]) == Ok(invitation)
  {
    CarrierIsPrintable(invitation);
    URIRoundTrip(invitation);
    RecordTextRoundTrip(CarrierURI(invitation).value);
  }

  lemma RecordTextOf(bytes: seq<Byte>, uri: string)
    requires AsciiString(bytes) == Some(uri) && |bytes| <= MAXIMUM_CARRIER_BYTES
    ensures RecordText(Record(true, [0x55], [], [0] + bytes)) == Ok(uri)
  {
    assert ([0] + bytes)[1..] == bytes;
  }

  lemma RecordTextRoundTrip(uri: string)
    requires IsAscii(uri) && |uri| <= MAXIMUM_CARRIER_BYTES
    ensures RecordText(Record(true, [0x55], [], [0] + EncodeUtf8(uri))) == Ok(uri)
  {
    AsciiIsUtf8(uri);
    AsciiStringRoundTrip(uri);
    RecordTextOf(EncodeUtf8(uri), uri);
  }

  lemma RecordTextIsPayload(record: Record, uri: string)
    requires RecordText(record) == Ok(uri)
    ensures record.payload == [0] + EncodeUtf8(uri)
  {
    AsciiIsUtf8(uri);
    assert AsciiBytes(uri) == record.payload[1..];
  }

  /** Nothing but a valid invitation, bare or in its one carrier link, is ever taken from a record. */
  lemma RecordAccepts(record: Record, invitation: string)
    requires InvitationFromRecord(record) == Ok(invitation)
    ensures ValidatedInvitation(invitation).Ok?
    ensures record.payload == [0] + EncodeUtf8(invitation)
         || record.payload == [0] + EncodeUtf8(CarrierURI(invitation).value)
  {
    var uri := RecordText(record).value;
    RecordTextIsPayload(record, uri);
    URIAccepts(uri, invitation);
  }
}
