/** Text as the apps handle it: Unicode scalars, UTF-8, trimming, peer keys and fixed-width numbers. */
module Text {
  import opened Prelude

  // ---------------------------------------------------------------------------------------------
  // Trimming
  // ---------------------------------------------------------------------------------------------

  /** Foundation's `whitespacesAndNewlines`: category Z, U+0009 to U+000D and U+0085. */
  predicate IsSpace(c: char) {
    var v := c as int;
    || 0x09 <= v <= 0x0D || v == 0x20 || v == 0x85 || v == 0xA0 || v == 0x1680
    || 0x2000 <= v <= 0x200A || v == 0x2028 || v == 0x2029 || v == 0x202F || v == 0x205F || v == 0x3000
  }

  function TrimStart(s: string): (r: string)
    ensures r == [] || !IsSpace(r[0])
    ensures |r| <= |s| && r == s[|s| - |r|..]
  {
    if s != [] && IsSpace(s[0]) then TrimStart(s[1..]) else s
  }

  function TrimEnd(s: string): (r: string)
    ensures r == [] || !IsSpace(r[|r| - 1])
    ensures |r| <= |s| && r == s[..|r|]
  {
    if s != [] && IsSpace(s[|s| - 1]) then TrimEnd(s[..|s| - 1]) else s
  }

  function Trim(s: string): string {
    TrimEnd(TrimStart(s))
  }

  predicate IsTrimmed(s: string) {
    s == [] || (!IsSpace(s[0]) && !IsSpace(s[|s| - 1]))
  }

  /** Trimming reaches a fixed point at once. */
  lemma TrimSettles(s: string)
    ensures IsTrimmed(Trim(s))
    ensures IsTrimmed(s) ==> Trim(s) == s
  {
  }

  /** A path cut at its slashes. */
  function Components(path: string): (r: seq<string>)
    ensures r != []
  {
    if path == "" then [""]
    else
      var rest := Components(path[1..]);
      if path[0] == '/' then [""] + rest else [[path[0]] + rest[0]] + rest[1..]
  }

  // ---------------------------------------------------------------------------------------------
  // UTF-8
  // ---------------------------------------------------------------------------------------------

  function EncodeScalar(c: char): (b: seq<Byte>)
    ensures 1 <= |b| <= 4
  {
    var v := c as int;
    if v < 0x80 then [v]
    else if v < 0x800 then [0xC0 + v / 64, 0x80 + v % 64]
    else if v < 0x10000 then [0xE0 + v / 4096, 0x80 + v / 64 % 64, 0x80 + v % 64]
    else [0xF0 + v / 262144, 0x80 + v / 4096 % 64, 0x80 + v / 64 % 64, 0x80 + v % 64]
  }

  function EncodeUtf8(s: string): (b: seq<Byte>) {
    if s == [] then [] else EncodeScalar(s[0]) + EncodeUtf8(s[1..])
  }

  predicate IsContinuation(b: Byte) {
    0x80 <= b < 0xC0
  }

  predicate IsScalar(v: int) {
    0 <= v < 0xD800 || 0xE000 <= v < 0x11_0000
  }

  /** The strict decoder: overlong forms, surrogates and stray bytes are refused. Yields a scalar and its length. */
  function DecodeScalar(b: seq<Byte>): (r: Option<(char, nat)>)
    ensures r.Some? ==> 1 <= r.value.1 <= |b|
  {
    if |b| >= 1 && b[0] < 0x80 then Some((b[0] as char, 1))
    else if |b| >= 2 && 0xC2 <= b[0] < 0xE0 && IsContinuation(b[1]) then
      Some((((b[0] as int - 0xC0) * 64 + (b[1] as int - 0x80)) as char, 2))
    else if |b| >= 3 && 0xE0 <= b[0] < 0xF0 && IsContinuation(b[1]) && IsContinuation(b[2]) then
      var v := (b[0] as int - 0xE0) * 4096 + (b[1] as int - 0x80) * 64 + (b[2] as int - 0x80);
      if v >= 0x800 && IsScalar(v) then Some((v as char, 3)) else None
    else if |b| >= 4 && 0xF0 <= b[0] < 0xF5 && IsContinuation(b[1]) && IsContinuation(b[2]) && IsContinuation(b[3]) then
      var v := (b[0] as int - 0xF0) * 262144 + (b[1] as int - 0x80) * 4096 + (b[2] as int - 0x80) * 64
               + (b[3] as int - 0x80);
      if v >= 0x10000 && IsScalar(v) then Some((v as char, 4)) else None
    else None
  }

  function DecodeUtf8(b: seq<Byte>): Option<string> {
    if b == [] then Some([])
    else match DecodeScalar(b)
         case None => None
         case Some((c, n)) =>
           (match DecodeUtf8(b[n..])
            case None => None
            case Some(rest) => Some([c] + rest))
  }

  lemma ThreeDigits(v: nat)
    ensures v / 4096 * 4096 + v / 64 % 64 * 64 + v % 64 == v
  {
  }

  lemma FourDigits(v: nat)
    ensures v / 262144 * 262144 + v / 4096 % 64 * 4096 + v / 64 % 64 * 64 + v % 64 == v
  {
    var a := v / 64;
    ThreeDigits(a);
    assert v / 4096 == a / 64;
    assert v / 262144 == a / 4096;
    assert v == a * 64 + v % 64;
  }

  lemma ScalarRoundTrip(c: char, rest: seq<Byte>)
    ensures DecodeScalar(EncodeScalar(c) + rest) == Some((c, |EncodeScalar(c)|))
  {
    var v, e := c as int, EncodeScalar(c);
    var b := e + rest;
    assert forall i :: 0 <= i < |e| ==> b[i] == e[i];
    if v < 0x80 {
    } else if v < 0x800 {
      assert b[0] == 0xC0 + v / 64 && b[1] == 0x80 + v % 64;
    } else if v < 0x10000 {
      ThreeDigits(v);
      assert b[0] == 0xE0 + v / 4096 && b[1] == 0x80 + v / 64 % 64 && b[2] == 0x80 + v % 64;
    } else {
      FourDigits(v);
      assert b[0] == 0xF0 + v / 262144 && b[1] == 0x80 + v / 4096 % 64 && b[2] == 0x80 + v / 64 % 64
          && b[3] == 0x80 + v % 64;
    }
  }

  /** Decoding undoes encoding. */
  lemma {:induction false} Utf8RoundTrip(s: string)
    ensures DecodeUtf8(EncodeUtf8(s)) == Some(s)
  {
    if s != [] {
      var head, rest := EncodeScalar(s[0]), EncodeUtf8(s[1..]);
      ScalarRoundTrip(s[0], rest);
      assert (head + rest)[|head|..] == rest;
      Utf8RoundTrip(s[1..]);
      assert [s[0]] + s[1..] == s;
    }
  }

  /** The scalars of a list of grapheme clusters. */
  function Concat(parts: seq<string>): string {
    if parts == [] then [] else parts[0] + Concat(parts[1..])
  }

  lemma {:induction false} EncodeUtf8Append(s: string, t: string)
    ensures EncodeUtf8(s + t) == EncodeUtf8(s) + EncodeUtf8(t)
  {
    if s == [] {
      assert s + t == t;
    } else {
      EncodeUtf8Append(s[1..], t);
      assert (s + t)[1..] == s[1..] + t && (s + t)[0] == s[0];
      var first, rest, last := EncodeScalar(s[0]), EncodeUtf8(s[1..]), EncodeUtf8(t);
      assert first + (rest + last) == (first + rest) + last;
    }
  }

  lemma {:induction false} ConcatAppend(parts: seq<string>, last: string)
    ensures Concat(parts + [last]) == Concat(parts) + last
  {
    if parts == [] {
      assert parts + [last] == [last];
      assert [last][1..] == [];
    } else {
      ConcatAppend(parts[1..], last);
      assert (parts + [last])[1..] == parts[1..] + [last];
    }
  }

  // ---------------------------------------------------------------------------------------------
  // ASCII and peer keys
  // ---------------------------------------------------------------------------------------------

  predicate IsAscii(s: string) {
    forall i :: 0 <= i < |s| ==> s[i] as int < 128
  }

  function AsciiBytes(s: string): (b: seq<Byte>)
    requires IsAscii(s)
    ensures |b| == |s| && forall i :: 0 <= i < |s| ==> b[i] == s[i] as int
  {
    seq(|s|, i requires 0 <= i < |s| => s[i] as int)
  }

  function AsciiString(b: seq<Byte>): (r: Option<string>)
    ensures r.Some? <==> forall i :: 0 <= i < |b| ==> b[i] < 128
    ensures r.Some? ==> |r.value| == |b| && forall i :: 0 <= i < |b| ==> r.value[i] as int == b[i]
  {
    if forall i :: 0 <= i < |b| ==> b[i] < 128
    then Some(seq(|b|, i requires 0 <= i < |b| => b[i] as char)) else None
  }

  lemma AsciiStringRoundTrip(s: string)
    requires IsAscii(s)
    ensures AsciiString(AsciiBytes(s)) == Some(s)
  {
    assert AsciiString(AsciiBytes(s)).value == s;
  }

  /** Text that is pure ASCII has its own code points as UTF-8. */
  lemma {:induction false} AsciiIsUtf8(s: string)
    requires IsAscii(s)
    ensures EncodeUtf8(s) == AsciiBytes(s)
  {
    if s != [] {
      AsciiIsUtf8(s[1..]);
      assert EncodeScalar(s[0]) == [s[0] as int];
      assert AsciiBytes(s) == [s[0] as int] + AsciiBytes(s[1..]);
    }
  }

  const PEER_KEY_LENGTH := 16

  predicate IsLowerHex(c: char) {
    '0' <= c <= '9' || 'a' <= c <= 'f'
  }

  predicate IsPeerKey(s: string) {
    |s| == PEER_KEY_LENGTH && forall i :: 0 <= i < |s| ==> IsLowerHex(s[i])
  }

  function Lowercase(s: string): (r: string)
    ensures |r| == |s|
  {
    seq(|s|, i requires 0 <= i < |s| => if 'A' <= s[i] <= 'Z' then (s[i] as int + 32) as char else s[i])
  }

  function NormalizePeerKey(value: string): (r: Option<string>)
    ensures r.Some? ==> IsPeerKey(r.value)
  {
    var normalized := Lowercase(Trim(value));
    if IsPeerKey(normalized) then Some(normalized) else None
  }

  /** A normalised key is left alone. */
  lemma NormalizeFixesPeerKeys(key: string)
    requires IsPeerKey(key)
    ensures IsAscii(key) && NormalizePeerKey(key) == Some(key)
  {
    TrimSettles(key);
    assert Lowercase(key) == key;
  }

  // ---------------------------------------------------------------------------------------------
  // Fixed-width numbers
  // ---------------------------------------------------------------------------------------------

  function Power256(n: nat): (p: nat)
    ensures p > 0
  {
    if n == 0 then 1 else 256 * Power256(n - 1)
  }

  /** The n low-order octets of v, most significant first. */
  function BigEndian(v: nat, n: nat): (b: seq<Byte>)
    ensures |b| == n
  {
    if n == 0 then [] else BigEndian(v / 256, n - 1) + [v % 256]
  }

  function FromBigEndian(b: seq<Byte>): nat {
    if b == [] then 0 else FromBigEndian(b[..|b| - 1]) * 256 + b[|b| - 1]
  }

  lemma {:induction false} FromBigEndianBound(b: seq<Byte>)
    ensures FromBigEndian(b) < Power256(|b|)
  {
    if b != [] {
      FromBigEndianBound(b[..|b| - 1]);
    }
  }

  /** A number that fits survives its octets. */
  lemma {:induction false} BigEndianRoundTrip(v: nat, n: nat)
    requires v < Power256(n)
    ensures FromBigEndian(BigEndian(v, n)) == v
  {
    if n > 0 {
      assert v / 256 < Power256(n - 1);
      BigEndianRoundTrip(v / 256, n - 1);
      var high := BigEndian(v / 256, n - 1);
      assert (high + [v % 256])[..n - 1] == high;
    }
  }

  function HexDigit(d: nat): char
    requires d < 16
  {
    if d < 10 then ('0' as int + d) as char else ('a' as int + d - 10) as char
  }

  function DigitValue(c: char): nat {
    if '0' <= c <= '9' then c as int - '0' as int else if 'a' <= c <= 'f' then c as int - 'a' as int + 10 else 0
  }

  /** Lower-case hexadecimal of fixed width, as `%016llx` prints. */
  function Hex(v: nat, width: nat): (r: string)
    ensures |r| == width
  {
    if width == 0 then [] else Hex(v / 16, width - 1) + [HexDigit(v % 16)]
  }

  function HexValue(s: string): nat {
    if s == [] then 0 else HexValue(s[..|s| - 1]) * 16 + DigitValue(s[|s| - 1])
  }

  function Power16(n: nat): (p: nat)
    ensures p > 0
  {
    if n == 0 then 1 else 16 * Power16(n - 1)
  }

  /** The printed form identifies the number. */
  lemma {:induction false} HexRoundTrip(v: nat, width: nat)
    requires v < Power16(width)
    ensures HexValue(Hex(v, width)) == v
  {
    if width > 0 {
      HighPart(v, Power16(width - 1));
      HexRoundTrip(v / 16, width - 1);
      var all, high := Hex(v, width), Hex(v / 16, width - 1);
      assert all == high + [HexDigit(v % 16)] && all[..|all| - 1] == high;
      assert DigitValue(all[|all| - 1]) == v % 16;
    }
  }

  lemma HighPart(v: nat, p: nat)
    requires v < 16 * p
    ensures v / 16 < p
  {
  }
}
