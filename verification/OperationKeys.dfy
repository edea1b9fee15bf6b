/**
 The stable funds key `nh-saga/v1/<world>/<attempt>/<step>` and the parser that undoes it.
 Percent-encoding is section 2.1 of RFC 3986, applied to UTF-8 bytes as `encodeURIComponent` does.
 */
module OperationKeys {
  import opened Wrappers

  datatype SagaStep = FundEscrow | DistributeEscrow | ReleaseEscrow

  function StepName(step: SagaStep): string {
    match step
    case FundEscrow => "FUND_ESCROW"
    case DistributeEscrow => "DISTRIBUTE_ESCROW"
    case ReleaseEscrow => "RELEASE_ESCROW"
  }

  function StepOfName(name: string): Option<SagaStep> {
    if name == "FUND_ESCROW" then Some(FundEscrow)
    else if name == "DISTRIBUTE_ESCROW" then Some(DistributeEscrow)
    else if name == "RELEASE_ESCROW" then Some(ReleaseEscrow)
    else None
  }

  /** The characters `encodeURIComponent` leaves alone. */
  predicate Unreserved(c: char) {
    || 'A' <= c <= 'Z' || 'a' <= c <= 'z' || '0' <= c <= '9'
    || c in ['-', '_', '.', '!', '~', '*', '\'', '(', ')']
  }

  type Byte = b: int | 0 <= b < 256

  function HexDigit(n: int): (c: char)
    requires 0 <= n < 16
    ensures Unreserved(c)
  {
    if n < 10 then '0' + (n as char) else 'A' + ((n - 10) as char)
  }

  function HexValue(c: char): Option<int> {
    if '0' <= c <= '9' then Some(c as int - '0' as int)
    else if 'A' <= c <= 'F' then Some(c as int - 'A' as int + 10)
    else None
  }

  function EncodeByte(b: Byte): string {
    ['%', HexDigit(b / 16), HexDigit(b % 16)]
  }

  function Utf8(c: char): (bytes: seq<Byte>)
    ensures 1 <= |bytes| <= 4
  {
    var n := c as int;
    if n < 0x80 then [n]
    else if n < 0x800 then [0xC0 + n / 0x40, 0x80 + n % 0x40]
    else if n < 0x10000 then [0xE0 + n / 0x1000, 0x80 + n / 0x40 % 0x40, 0x80 + n % 0x40]
    else [0xF0 + n / 0x40000, 0x80 + n / 0x1000 % 0x40, 0x80 + n / 0x40 % 0x40, 0x80 + n % 0x40]
  }

  function EncodeBytes(bytes: seq<Byte>): string {
    if bytes == [] then "" else EncodeByte(bytes[0]) + EncodeBytes(bytes[1..])
  }

  function EncodeChar(c: char): string {
    if Unreserved(c) then [c] else EncodeBytes(Utf8(c))
  }

  function EncodeURIComponent(s: string): string {
    if s == "" then "" else EncodeChar(s[0]) + EncodeURIComponent(s[1..])
  }

  /** One `%XX` triple at the front of `s`. */
  function DecodeByte(s: string): (r: Option<Byte>)
    ensures r.Some? ==> |s| >= 3
  {
    if |s| < 3 || s[0] != '%' || HexValue(s[1]).None? || HexValue(s[2]).None? then None
    else Some(16 * HexValue(s[1]).value + HexValue(s[2]).value)
  }

  /** How many bytes a UTF-8 sequence has, from its first byte. */
  function SequenceLength(lead: Byte): int {
    if lead < 0x80 then 1 else if lead < 0xE0 then 2 else if lead < 0xF0 then 3 else 4
  }

  function DecodeBytes(s: string, count: nat): (r: Option<seq<Byte>>)
    ensures r.Some? ==> |r.value| == count && |s| >= 3 * count
  {
    if count == 0 then Some([])
    else
      var first := DecodeByte(s);
      if first.None? then None
      else
        var rest := DecodeBytes(s[3..], count - 1);
        if rest.None? then None else Some([first.value] + rest.value)
  }

  /** The code point of a UTF-8 sequence, when it is a Unicode scalar value. */
  function CodePoint(bytes: seq<Byte>): Option<char>
    requires 1 <= |bytes| <= 4
  {
    var b := (i: int) requires 0 <= i < |bytes| => bytes[i] as int;
    var n := match |bytes|
      case 1 => b(0)
      case 2 => (b(0) - 0xC0) * 0x40 + (b(1) - 0x80)
      case 3 => (b(0) - 0xE0) * 0x1000 + (b(1) - 0x80) * 0x40 + (b(2) - 0x80)
      case _ => (b(0) - 0xF0) * 0x40000 + (b(1) - 0x80) * 0x1000 + (b(2) - 0x80) * 0x40 + (b(3) - 0x80);
    if 0 <= n < 0xD800 || 0xE000 <= n < 0x110000 then Some(n as char) else None
  }

  function DecodeURIComponent(s: string): Option<string> {
    if s == "" then Some("")
    else if s[0] != '%' then
      var rest := DecodeURIComponent(s[1..]);
      if rest.None? then None else Some([s[0]] + rest.value)
    else
      var lead := DecodeByte(s);
      if lead.None? then None
      else
        var count := SequenceLength(lead.value);
        var bytes := DecodeBytes(s, count);
        if bytes.None? || CodePoint(bytes.value).None? then None
        else
          var rest := DecodeURIComponent(s[3 * count..]);
          if rest.None? then None else Some([CodePoint(bytes.value).value] + rest.value)
  }

  lemma HexRoundTrip(n: int)
    requires 0 <= n < 16
    ensures HexValue(HexDigit(n)) == Some(n)
  {
  }

  lemma EncodeByteRoundTrip(b: Byte, tail: string)
    ensures DecodeByte(EncodeByte(b) + tail) == Some(b)
  {
    var s := EncodeByte(b) + tail;
    HexRoundTrip(b / 16);
    HexRoundTrip(b % 16);
    assert s[0] == '%' && s[1] == HexDigit(b / 16) && s[2] == HexDigit(b % 16);
  }

  lemma NextByte(b: Byte, rest: string, n: nat, bytes: seq<Byte>)
    requires DecodeBytes(rest, n) == Some(bytes)
    ensures DecodeBytes(EncodeByte(b) + rest, n + 1) == Some([b] + bytes)
  {
    EncodeByteRoundTrip(b, rest);
    assert (EncodeByte(b) + rest)[3..] == rest;
    hide DecodeByte, EncodeByte;
  }

  lemma {:induction false} EncodeBytesRoundTrip(bytes: seq<Byte>, tail: string)
    ensures |EncodeBytes(bytes)| == 3 * |bytes|
    ensures DecodeBytes(EncodeBytes(bytes) + tail, |bytes|) == Some(bytes)
  {
    if bytes == [] {
    } else {
      hide DecodeByte, EncodeByte, DecodeBytes;
      EncodeBytesRoundTrip(bytes[1..], tail);
      NextByte(bytes[0], EncodeBytes(bytes[1..]) + tail, |bytes| - 1, bytes[1..]);
      assert EncodeBytes(bytes) + tail == EncodeByte(bytes[0]) + (EncodeBytes(bytes[1..]) + tail);
      assert [bytes[0]] + bytes[1..] == bytes;
    }
  }

  lemma Utf8RoundTrip(c: char)
    ensures SequenceLength(Utf8(c)[0]) == |Utf8(c)|
    ensures CodePoint(Utf8(c)) == Some(c)
  {
    var n := c as int;
    assert n < 0x110000;
    if n >= 0x10000 {
      assert n / 0x40 == n / 0x1000 * 0x40 + n / 0x40 % 0x40;
      assert n / 0x1000 == n / 0x40000 * 0x40 + n / 0x1000 % 0x40;
    } else if n >= 0x800 {
      assert n / 0x40 == n / 0x1000 * 0x40 + n / 0x40 % 0x40;
    }
  }

  /** One escaped character is read off, and decoding goes on behind it. */
  lemma DecodesSequence(c: char, bytes: seq<Byte>, s: string, tail: string)
    requires 1 <= |bytes| <= 4 && |s| >= 3 * |bytes| && s[0] == '%' && s[3 * |bytes|..] == tail
    requires DecodeByte(s) == Some(bytes[0]) && DecodeBytes(s, |bytes|) == Some(bytes)
    requires SequenceLength(bytes[0]) == |bytes| && CodePoint(bytes) == Some(c)
    ensures DecodeURIComponent(s) == (var rest := DecodeURIComponent(tail); if rest.None? then None else Some([c] + rest.value))
  {
    hide DecodeByte, DecodeBytes, SequenceLength, CodePoint;
  }

  lemma EscapedCharRoundTrip(c: char, bytes: seq<Byte>, tail: string)
    requires 1 <= |bytes| <= 4 && SequenceLength(bytes[0]) == |bytes| && CodePoint(bytes) == Some(c)
    ensures |EncodeBytes(bytes)| > 0
    ensures DecodeURIComponent(EncodeBytes(bytes) + tail)
         == (var rest := DecodeURIComponent(tail); if rest.None? then None else Some([c] + rest.value))
  {
    hide CodePoint, SequenceLength, DecodeURIComponent, DecodeByte, DecodeBytes;
    var s := EncodeBytes(bytes) + tail;
    EncodeBytesRoundTrip(bytes, tail);
    EncodeByteRoundTrip(bytes[0], EncodeBytes(bytes[1..]) + tail);
    assert s == EncodeByte(bytes[0]) + (EncodeBytes(bytes[1..]) + tail);
    assert s[0] == '%';
    assert s[3 * |bytes|..] == tail;
    DecodesSequence(c, bytes, s, tail);
  }

  lemma EncodeCharRoundTrip(c: char, tail: string)
    ensures |EncodeChar(c)| > 0
    ensures DecodeURIComponent(EncodeChar(c) + tail)
         == (var rest := DecodeURIComponent(tail); if rest.None? then None else Some([c] + rest.value))
  {
    var s := EncodeChar(c) + tail;
    if Unreserved(c) {
      assert s[1..] == tail;
    } else {
      Utf8RoundTrip(c);
      EscapedCharRoundTrip(c, Utf8(c), tail);
    }
  }

  /** Percent-encoding loses nothing. */
  lemma {:induction false} EncodeURIComponentRoundTrip(s: string)
    ensures DecodeURIComponent(EncodeURIComponent(s)) == Some(s)
  {
    if s == "" {
    } else {
      EncodeURIComponentRoundTrip(s[1..]);
      EncodeCharRoundTrip(s[0], EncodeURIComponent(s[1..]));
      assert [s[0]] + s[1..] == s;
    }
  }

  predicate SlashFree(s: string) {
    forall i :: 0 <= i < |s| ==> s[i] != '/'
  }

  lemma {:induction false} EncodeBytesSlashFree(bytes: seq<Byte>)
    ensures SlashFree(EncodeBytes(bytes))
  {
    if bytes == [] {
    } else {
      EncodeBytesSlashFree(bytes[1..]);
    }
  }

  /** The separator never occurs inside an encoded component. */
  lemma {:induction false} EncodeURIComponentSlashFree(s: string)
    ensures SlashFree(EncodeURIComponent(s))
  {
    if s == "" {
    } else {
      EncodeURIComponentSlashFree(s[1..]);
      if !Unreserved(s[0]) {
        EncodeBytesSlashFree(Utf8(s[0]));
      }
    }
  }

  /** `s.split('/')` */
  function Split(s: string): (parts: seq<string>)
    ensures |parts| > 0
  {
    if s == "" then [""]
    else
      var rest := Split(s[1..]);
      if s[0] == '/' then [""] + rest else [[s[0]] + rest[0]] + rest[1..]
  }

  lemma {:induction false} SplitFirst(part: string, tail: string)
    requires SlashFree(part)
    ensures Split(part + "/" + tail) == [part] + Split(tail)
  {
    if part == "" {
      assert part + "/" + tail == "/" + tail;
      assert ("/" + tail)[1..] == tail;
    } else {
      assert SlashFree(part[1..]);
      SplitFirst(part[1..], tail);
      assert (part + "/" + tail)[1..] == part[1..] + "/" + tail;
      assert [part[0]] + part[1..] == part;
    }
  }

  lemma {:induction false} SplitLast(part: string)
    requires SlashFree(part)
    ensures Split(part) == [part]
  {
    if part == "" {
    } else {
      assert SlashFree(part[1..]);
      SplitLast(part[1..]);
      assert [part[0]] + part[1..] == part;
    }
  }

  /** `sagaOperationKey` */
  function OperationKey(worldId: string, attemptId: string, step: SagaStep): (key: string)
    ensures |key| > 0
  {
    "nh-saga" + "/" + ("v1" + "/" + (EncodeURIComponent(worldId) + "/" + (EncodeURIComponent(attemptId) + "/" + StepName(step))))
  }

  datatype KeyParts = KeyParts(worldId: string, attemptId: string, step: SagaStep)

  /** Reads a funds key back: split at the slashes, then percent-decode the two identifiers. */
  function ParseOperationKey(key: string): Option<KeyParts> {
    ParseParts(Split(key))
  }

  function ParseParts(parts: seq<string>): Option<KeyParts> {
    if |parts| != 5 || parts[0] != "nh-saga" || parts[1] != "v1" then None
    else
      var world, attempt, step := DecodeURIComponent(parts[2]), DecodeURIComponent(parts[3]), StepOfName(parts[4]);
      if world.None? || attempt.None? || step.None? then None
      else Some(KeyParts(world.value, attempt.value, step.value))
  }

  lemma StepNameRoundTrip(step: SagaStep)
    ensures SlashFree(StepName(step)) && StepOfName(StepName(step)) == Some(step)
  {
  }

  lemma SplitFive(p0: string, p1: string, p2: string, p3: string, p4: string)
    requires SlashFree(p0) && SlashFree(p1) && SlashFree(p2) && SlashFree(p3) && SlashFree(p4)
    ensures Split(p0 + "/" + (p1 + "/" + (p2 + "/" + (p3 + "/" + p4)))) == [p0, p1, p2, p3, p4]
  {
    SplitLast(p4);
    SplitFirst(p3, p4);
    SplitFirst(p2, p3 + "/" + p4);
    SplitFirst(p1, p2 + "/" + (p3 + "/" + p4));
    SplitFirst(p0, p1 + "/" + (p2 + "/" + (p3 + "/" + p4)));
  }

  lemma KeyPartsRoundTrip(worldId: string, attemptId: string, step: SagaStep)
    ensures ParseParts(["nh-saga", "v1", EncodeURIComponent(worldId), EncodeURIComponent(attemptId), StepName(step)])
         == Some(KeyParts(worldId, attemptId, step))
  {
    EncodeURIComponentRoundTrip(worldId);
    EncodeURIComponentRoundTrip(attemptId);
    StepNameRoundTrip(step);
    var w, a, n := EncodeURIComponent(worldId), EncodeURIComponent(attemptId), StepName(step);
    var parts := ["nh-saga", "v1", w, a, n];
    assert parts[2] == w && parts[3] == a && parts[4] == n;
  }

  /** The key is undone by splitting it: nothing of the world, the attempt or the step is lost. */
  lemma OperationKeyRoundTrip(worldId: string, attemptId: string, step: SagaStep)
    ensures ParseOperationKey(OperationKey(worldId, attemptId, step)) == Some(KeyParts(worldId, attemptId, step))
  {
    var w, a, n := EncodeURIComponent(worldId), EncodeURIComponent(attemptId), StepName(step);
    EncodeURIComponentSlashFree(worldId);
    EncodeURIComponentSlashFree(attemptId);
    StepNameRoundTrip(step);
    KeyPartsRoundTrip(worldId, attemptId, step);
    SplitFive("nh-saga", "v1", w, a, n);
  }

  /** No two sagas, and no two steps of one saga, share a funds key. */
  lemma OperationKeyInjective(w1: string, a1: string, s1: SagaStep, w2: string, a2: string, s2: SagaStep)
    requires OperationKey(w1, a1, s1) == OperationKey(w2, a2, s2)
    ensures w1 == w2 && a1 == a2 && s1 == s2
  {
    OperationKeyRoundTrip(w1, a1, s1);
    OperationKeyRoundTrip(w2, a2, s2);
  }
}
