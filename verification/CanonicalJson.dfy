/**
 Canonical JSON (`canonicalizeJson` in src/integrations/knowledge-ball/idempotency-retry.js): object
 keys sorted by UTF-16 code units, as section 3.2.3 of RFC 8785 orders them, and JSON text as
 section 2 of RFC 8259 defines it. A parser that undoes the printer shows that the text determines
 the value up to the order of keys, and nothing else.
 A number is represented by the token `JSON.stringify` prints for it.
 */
module CanonicalJson {
  import opened Wrappers

  datatype Json =
    | Null | Bool(b: bool) | Num(token: string) | Str(s: string)
    | Arr(items: seq<Json>) | Obj(fields: seq<Field>)
    | NonFinite | NotJson

  datatype Field = Field(key: string, value: Json)

  /** What a value means once the order of its keys is forgotten. */
  datatype Meaning =
    | MNull | MBool(b: bool) | MNum(token: string) | MStr(s: string)
    | MArr(items: seq<Meaning>) | MObj(fields: map<string, Meaning>)

  datatype PayloadProblem = InvalidKbPayload

  // ---- Key order ----

  /** Orders scalar values the way their UTF-16 code units order. */
  function Rank(c: char): int {
    var n := c as int;
    if n < 0xD800 then n else if n >= 0x10000 then n - 0x10000 + 0xD800 else n + 0x100000
  }

  predicate Below(a: string, b: string) {
    if b == "" then false
    else if a == "" then true
    else if a[0] != b[0] then Rank(a[0]) < Rank(b[0])
    else Below(a[1..], b[1..])
  }

  lemma RankInjective(c: char, d: char)
    requires Rank(c) == Rank(d)
    ensures c == d
  {
  }

  lemma {:induction false} BelowTotal(a: string, b: string)
    ensures a == b || Below(a, b) || Below(b, a)
    ensures !(Below(a, b) && Below(b, a)) && !Below(a, a)
  {
    if a != "" && b != "" {
      if a[0] == b[0] {
        BelowTotal(a[1..], b[1..]);
        assert a == [a[0]] + a[1..] && b == [b[0]] + b[1..];
      } else if Rank(a[0]) == Rank(b[0]) {
        RankInjective(a[0], b[0]);
      }
    }
    if a != "" {
      BelowIrreflexive(a);
    }
  }

  lemma {:induction false} BelowIrreflexive(a: string)
    ensures !Below(a, a)
  {
    if a != "" {
      BelowIrreflexive(a[1..]);
    }
  }

  lemma {:induction false} BelowTransitive(a: string, b: string, c: string)
    requires Below(a, b) && Below(b, c)
    ensures Below(a, c)
  {
    if a != "" && a[0] == b[0] == c[0] {
      BelowTransitive(a[1..], b[1..], c[1..]);
    }
  }

  // ---- The order is that of UTF-16 code units ----

  /** The code units of one scalar value: itself, or a surrogate pair. */
  function UnitsOf(c: char): (units: seq<int>)
    ensures 1 <= |units| <= 2
  {
    var n := c as int;
    if n < 0x10000 then [n] else [0xD800 + (n - 0x10000) / 0x400, 0xDC00 + (n - 0x10000) % 0x400]
  }

  function Units(s: string): seq<int> {
    if s == "" then [] else UnitsOf(s[0]) + Units(s[1..])
  }

  predicate UnitsBelow(a: seq<int>, b: seq<int>) {
    b != [] && (a == [] || a[0] < b[0] || (a[0] == b[0] && UnitsBelow(a[1..], b[1..])))
  }

  lemma {:induction false} SharedPrefix(p: seq<int>, a: seq<int>, b: seq<int>)
    ensures UnitsBelow(p + a, p + b) <==> UnitsBelow(a, b)
  {
    if p == [] {
      assert p + a == a && p + b == b;
    } else {
      assert (p + a)[1..] == p[1..] + a && (p + b)[1..] == p[1..] + b;
      SharedPrefix(p[1..], a, b);
    }
  }

  /** Two different scalar values are told apart by their own code units, whatever follows. */
  lemma DifferentUnits(c: char, d: char, a: seq<int>, b: seq<int>)
    requires c != d
    ensures UnitsBelow(UnitsOf(c) + a, UnitsOf(d) + b) <==> Rank(c) < Rank(d)
  {
    var u, v := UnitsOf(c), UnitsOf(d);
    assert (u + a)[0] == u[0] && (v + b)[0] == v[0];
    if u[0] == v[0] {
      assert |u| == 2 && |v| == 2;
      assert (u + a)[1..][0] == u[1] && (v + b)[1..][0] == v[1] && u[1] != v[1];
    }
  }

  /** `Below` compares exactly as JavaScript's default sort: by the sequences of UTF-16 code units. */
  lemma {:induction false} BelowIsCodeUnitOrder(a: string, b: string)
    ensures Below(a, b) <==> UnitsBelow(Units(a), Units(b))
  {
    if a != "" && b != "" {
      if a[0] == b[0] {
        BelowIsCodeUnitOrder(a[1..], b[1..]);
        SharedPrefix(UnitsOf(a[0]), Units(a[1..]), Units(b[1..]));
      } else {
        DifferentUnits(a[0], b[0], Units(a[1..]), Units(b[1..]));
      }
    }
  }

  // ---- Printing ----

  function HexDigit(n: int): char
    requires 0 <= n < 16
  {
    if n < 10 then '0' + n as char else 'a' + (n - 10) as char
  }

  /** `JSON.stringify` of one character inside a string. */
  function EscapeChar(c: char): string {
    if c == '"' then "\\\""
    else if c == '\\' then "\\\\"
    else if c == '\U{8}' then "\\b"
    else if c == '\U{c}' then "\\f"
    else if c == '\n' then "\\n"
    else if c == '\r' then "\\r"
    else if c == '\t' then "\\t"
    else if c as int < 0x20 then ['\\', 'u', '0', '0', HexDigit(c as int / 16), HexDigit(c as int % 16)]
    else [c]
  }

  /** No character takes more room than JSON needs for it, so with its round trip each has one escape. */
  lemma EscapesAreShort(c: char)
    ensures |EscapeChar(c)| == if exists e :: Unescape(e) == Some(c) then 2 else if c < ' ' then 6 else 1
  {
    assert Unescape('"') == Some('"') && Unescape('\\') == Some('\\') && Unescape('b') == Some('\U{8}');
    assert Unescape('f') == Some('\U{c}') && Unescape('n') == Some('\n');
    assert Unescape('r') == Some('\r') && Unescape('t') == Some('\t');
  }

  function Escaped(s: string): string {
    if s == "" then "" else EscapeChar(s[0]) + Escaped(s[1..])
  }

  function Quoted(s: string): string {
    "\"" + Escaped(s) + "\""
  }

  /** A printed property. */
  datatype Printed = Printed(key: string, text: string)

  function Insert(p: Printed, ps: seq<Printed>): seq<Printed> {
    if ps == [] then [p]
    else if Below(p.key, ps[0].key) then [p] + ps
    else [ps[0]] + Insert(p, ps[1..])
  }

  function Sorted(ps: seq<Printed>): seq<Printed> {
    if ps == [] then [] else Insert(ps[0], Sorted(ps[1..]))
  }

  function JoinFields(ps: seq<Printed>): string {
    if ps == [] then ""
    else Quoted(ps[0].key) + ":" + ps[0].text + (if |ps| == 1 then "" else "," + JoinFields(ps[1..]))
  }

  predicate Plain(v: Json) {
    match v
    case NonFinite => false
    case NotJson => false
    case Arr(items) => forall i :: 0 <= i < |items| ==> Plain(items[i])
    case Obj(fields) => forall i :: 0 <= i < |fields| ==> Plain(fields[i].value)
    case _ => true
  }

  function Print(v: Json): string
    requires Plain(v)
  {
    match v
    case Null => "null"
    case Bool(b) => if b then "true" else "false"
    case Num(token) => token
    case Str(s) => Quoted(s)
    case Arr(items) => "[" + PrintItems(items) + "]"
    case Obj(fields) => "{" + JoinFields(Sorted(PrintFields(fields))) + "}"
  }

  function PrintItems(items: seq<Json>): string
    requires forall i :: 0 <= i < |items| ==> Plain(items[i])
  {
    if items == [] then ""
    else Print(items[0]) + (if |items| == 1 then "" else "," + PrintItems(items[1..]))
  }

  function PrintFields(fields: seq<Field>): seq<Printed>
    requires forall i :: 0 <= i < |fields| ==> Plain(fields[i].value)
  {
    if fields == [] then []
    else [Printed(fields[0].key, Print(fields[0].value))] + PrintFields(fields[1..])
  }

  /** The error path: anything that is not a finite plain JSON value, however deep, is refused. */
  function Canonicalize(v: Json): Result<string, PayloadProblem> {
    if Plain(v) then Ok(Print(v)) else Err(InvalidKbPayload)
  }

  // ---- Meaning ----

  predicate IsNumberChar(c: char) {
    ('0' <= c <= '9') || c == '-' || c == '+' || c == '.' || c == 'e' || c == 'E'
  }

  predicate IsNumberToken(token: string) {
    token != "" && (('0' <= token[0] <= '9') || token[0] == '-')
    && forall i :: 0 <= i < |token| ==> IsNumberChar(token[i])
  }

  predicate DistinctKeys(fields: seq<Field>) {
    forall i, j :: 0 <= i < j < |fields| ==> fields[i].key != fields[j].key
  }

  /** A value as JavaScript holds it: printable number tokens, and one property per key. */
  predicate Valid(v: Json) {
    match v
    case Num(token) => IsNumberToken(token)
    case Arr(items) => forall i :: 0 <= i < |items| ==> Valid(items[i])
    case Obj(fields) => DistinctKeys(fields) && forall i :: 0 <= i < |fields| ==> Valid(fields[i].value)
    case NonFinite => false
    case NotJson => false
    case _ => true
  }

  lemma {:induction false} ValidIsPlain(v: Json)
    requires Valid(v)
    ensures Plain(v)
  {
    match v
    case Arr(items) =>
      forall i | 0 <= i < |items| ensures Plain(items[i]) {
        ValidIsPlain(items[i]);
      }
    case Obj(fields) =>
      forall i | 0 <= i < |fields| ensures Plain(fields[i].value) {
        ValidIsPlain(fields[i].value);
      }
    case _ =>
  }

  function MeaningOf(v: Json): Meaning
    requires Valid(v)
  {
    match v
    case Null => MNull
    case Bool(b) => MBool(b)
    case Num(token) => MNum(token)
    case Str(s) => MStr(s)
    case Arr(items) => MArr(MeaningOfItems(items))
    case Obj(fields) => MObj(MeaningOfFields(fields))
  }

  function MeaningOfItems(items: seq<Json>): (ms: seq<Meaning>)
    requires forall i :: 0 <= i < |items| ==> Valid(items[i])
    ensures |ms| == |items|
  {
    if items == [] then [] else [MeaningOf(items[0])] + MeaningOfItems(items[1..])
  }

  function MeaningOfFields(fields: seq<Field>): map<string, Meaning>
    requires forall i :: 0 <= i < |fields| ==> Valid(fields[i].value)
  {
    if fields == [] then map[] else MeaningOfFields(fields[1..])[fields[0].key := MeaningOf(fields[0].value)]
  }

  // ---- Parsing ----

  function HexValue(c: char): Option<int> {
    if '0' <= c <= '9' then Some(c as int - '0' as int)
    else if 'a' <= c <= 'f' then Some(c as int - 'a' as int + 10)
    else None
  }

  function Prepend(c: char, parsed: Option<(string, string)>): Option<(string, string)> {
    if parsed.None? then None else Some(([c] + parsed.value.0, parsed.value.1))
  }

  function Unescape(c: char): Option<char> {
    if c == '"' then Some('"')
    else if c == '\\' then Some('\\')
    else if c == 'b' then Some('\U{8}')
    else if c == 'f' then Some('\U{c}')
    else if c == 'n' then Some('\n')
    else if c == 'r' then Some('\r')
    else if c == 't' then Some('\t')
    else None
  }

  /** The rest of a string literal after its opening quote. */
  function ParseString(s: string): (parsed: Option<(string, string)>)
    ensures parsed.Some? ==> |parsed.value.1| < |s|
    decreases |s|
  {
    if s == "" then None
    else if s[0] == '"' then Some(("", s[1..]))
    else if s[0] != '\\' then Prepend(s[0], ParseString(s[1..]))
    else if |s| >= 2 && Unescape(s[1]).Some? then Prepend(Unescape(s[1]).value, ParseString(s[2..]))
    else if |s| >= 6 && s[1..4] == "u00" && HexValue(s[4]).Some? && HexValue(s[5]).Some? then
      Prepend((HexValue(s[4]).value * 16 + HexValue(s[5]).value) as char, ParseString(s[6..]))
    else None
  }

  function NumberLength(s: string): (n: nat)
    ensures n <= |s|
  {
    if s == "" || !IsNumberChar(s[0]) then 0 else 1 + NumberLength(s[1..])
  }

  predicate StartsWith(s: string, prefix: string) {
    |prefix| <= |s| && s[..|prefix|] == prefix
  }

  function ParseValue(s: string): (parsed: Option<(Meaning, string)>)
    ensures parsed.Some? ==> |parsed.value.1| < |s|
    decreases |s|, 0
  {
    if s == "" then None
    else if StartsWith(s, "null") then Some((MNull, s[4..]))
    else if StartsWith(s, "true") then Some((MBool(true), s[4..]))
    else if StartsWith(s, "false") then Some((MBool(false), s[5..]))
    else if s[0] == '"' then
      var parsed := ParseString(s[1..]);
      if parsed.None? then None else Some((MStr(parsed.value.0), parsed.value.1))
    else if s[0] == '[' then
      if StartsWith(s[1..], "]") then Some((MArr([]), s[2..]))
      else
        var parsed := ParseItems(s[1..]);
        if parsed.None? then None else Some((MArr(parsed.value.0), parsed.value.1))
    else if s[0] == '{' then
      if StartsWith(s[1..], "}") then Some((MObj(map[]), s[2..]))
      else
        var parsed := ParseFields(s[1..]);
        if parsed.None? then None else Some((MObj(parsed.value.0), parsed.value.1))
    else if '0' <= s[0] <= '9' || s[0] == '-' then
      var n := NumberLength(s);
      Some((MNum(s[..n]), s[n..]))
    else None
  }

  function ParseItems(s: string): (parsed: Option<(seq<Meaning>, string)>)
    ensures parsed.Some? ==> |parsed.value.1| < |s|
    decreases |s|, 1
  {
    var first := ParseValue(s);
    if first.None? || first.value.1 == "" then None
    else
      var (m, rest) := first.value;
      if rest[0] == ']' then Some(([m], rest[1..]))
      else if rest[0] == ',' then
        var others := ParseItems(rest[1..]);
        if others.None? then None else Some(([m] + others.value.0, others.value.1))
      else None
  }

  function ParseFields(s: string): (parsed: Option<(map<string, Meaning>, string)>)
    ensures parsed.Some? ==> |parsed.value.1| < |s|
    decreases |s|, 1
  {
    if s == "" || s[0] != '"' then None
    else
      var key := ParseString(s[1..]);
      if key.None? || key.value.1 == "" || key.value.1[0] != ':' then None
      else
        var first := ParseValue(key.value.1[1..]);
        if first.None? || first.value.1 == "" then None
        else
          var (m, rest) := first.value;
          if rest[0] == '}' then Some((map[key.value.0 := m], rest[1..]))
          else if rest[0] == ',' then
            var others := ParseFields(rest[1..]);
            if others.None? then None else Some((others.value.0[key.value.0 := m], others.value.1))
          else None
  }

  // ---- The parser undoes the printer ----

  lemma PlainRoundTrip(c: char, tail: string)
    requires EscapeChar(c) == [c] && c != '"' && c != '\\'
    ensures ParseString([c] + tail) == Prepend(c, ParseString(tail))
  {
    assert ([c] + tail)[1..] == tail;
    hide EscapeChar, Unescape, HexValue;
  }

  lemma ShortRoundTrip(c: char, e: char, tail: string)
    requires Unescape(e) == Some(c)
    ensures ParseString(['\\', e] + tail) == Prepend(c, ParseString(tail))
  {
    var s := ['\\', e] + tail;
    assert s[2..] == tail && s[1] == e;
    hide Unescape, HexValue;
  }

  lemma EscapeRoundTrip(c: char, tail: string)
    ensures ParseString(EscapeChar(c) + tail) == Prepend(c, ParseString(tail))
  {
    hide ParseString, HexDigit, Prepend;
    var e := EscapeChar(c);
    if |e| == 2 {
      assert e == ['\\', e[1]];
      ShortRoundTrip(c, e[1], tail);
    } else if |e| == 6 {
      ControlRoundTrip(c, tail);
    } else {
      PlainRoundTrip(c, tail);
    }
  }

  lemma HexRoundTrip(n: int)
    requires 0 <= n < 16
    ensures HexValue(HexDigit(n)) == Some(n)
  {
  }

  lemma UnicodeEscape(high: int, low: int, tail: string)
    requires 0 <= high < 2 && 0 <= low < 16
    ensures ParseString(['\\', 'u', '0', '0', HexDigit(high), HexDigit(low)] + tail)
         == Prepend((high * 16 + low) as char, ParseString(tail))
  {
    HexRoundTrip(high);
    HexRoundTrip(low);
    hide HexDigit, HexValue;
    var s := ['\\', 'u', '0', '0', HexDigit(high), HexDigit(low)] + tail;
    assert s[6..] == tail && s[1..4] == "u00";
  }

  lemma ControlRoundTrip(c: char, tail: string)
    requires c as int < 0x20 && |EscapeChar(c)| == 6
    ensures ParseString(EscapeChar(c) + tail) == Prepend(c, ParseString(tail))
  {
    hide ParseString, HexDigit, Prepend;
    var high, low := c as int / 16, c as int % 16;
    ControlDigits(c, high, low);
    UnicodeEscape(high, low, tail);
  }

  lemma ControlDigits(c: char, high: int, low: int)
    requires c as int < 0x20 && |EscapeChar(c)| == 6 && high == c as int / 16 && low == c as int % 16
    ensures 0 <= high < 2 && 0 <= low < 16 && (high * 16 + low) as char == c
    ensures EscapeChar(c) == ['\\', 'u', '0', '0', HexDigit(high), HexDigit(low)]
  {
    hide HexDigit;
  }

  lemma {:induction false} StringRoundTrip(s: string, tail: string)
    ensures ParseString(Escaped(s) + "\"" + tail) == Some((s, tail))
  {
    if s == "" {
      assert Escaped(s) + "\"" + tail == "\"" + tail;
      assert ("\"" + tail)[1..] == tail;
    } else {
      var after := Escaped(s[1..]) + "\"" + tail;
      assert Escaped(s) + "\"" + tail == EscapeChar(s[0]) + after;
      EscapeRoundTrip(s[0], after);
      StringRoundTrip(s[1..], tail);
      assert [s[0]] + s[1..] == s;
    }
  }

  /** What may follow a value inside a text: nothing, or a character that cannot extend a number. */
  predicate Delimited(rest: string) {
    rest == "" || !IsNumberChar(rest[0])
  }

  lemma {:induction false} NumberLengthOf(token: string, rest: string)
    requires Delimited(rest) && forall i :: 0 <= i < |token| ==> IsNumberChar(token[i])
    ensures NumberLength(token + rest) == |token|
  {
    if token == "" {
      assert token + rest == rest;
    } else {
      assert (token + rest)[1..] == token[1..] + rest;
      NumberLengthOf(token[1..], rest);
    }
  }

  /** A text that is read back as its meaning, whatever delimiter follows. */
  ghost predicate Parses(text: string, m: Meaning) {
    forall rest: string {:trigger ParseValue(text + rest)} :: Delimited(rest) ==> ParseValue(text + rest) == Some((m, rest))
  }

  lemma NumberParses(token: string)
    requires IsNumberToken(token)
    ensures Parses(token, MNum(token))
  {
    forall rest: string | Delimited(rest) ensures ParseValue(token + rest) == Some((MNum(token), rest)) {
      var s := token + rest;
      NumberLengthOf(token, rest);
      assert s[..|token|] == token && s[|token|..] == rest;
      assert s[0] == token[0];
      NotAWord(s, "null");
      NotAWord(s, "true");
      NotAWord(s, "false");
    }
  }

  lemma NotAWord(s: string, word: string)
    requires s != "" && word != "" && s[0] != word[0]
    ensures !StartsWith(s, word)
  {
  }

  lemma WordParses(word: string, m: Meaning)
    requires (word == "null" && m == MNull) || (word == "true" && m == MBool(true)) || (word == "false" && m == MBool(false))
    ensures Parses(word, m)
  {
    forall rest: string | Delimited(rest) ensures ParseValue(word + rest) == Some((m, rest)) {
      var s := word + rest;
      assert s[..|word|] == word && s[|word|..] == rest;
      if word != "null" {
        NotAWord(s, "null");
      }
      if word == "false" {
        NotAWord(s, "true");
      }
    }
  }

  lemma StringStart(body: string)
    ensures ParseString(body).Some? ==>
      ParseValue("\"" + body) == Some((MStr(ParseString(body).value.0), ParseString(body).value.1))
  {
    hide ParseFields, ParseString, ParseItems;
    var s := "\"" + body;
    assert s[1..] == body;
    NotAWord(s, "null");
    NotAWord(s, "true");
    NotAWord(s, "false");
  }

  lemma TextParses(t: string)
    ensures Parses(Quoted(t), MStr(t))
  {
    forall rest: string | Delimited(rest) ensures ParseValue(Quoted(t) + rest) == Some((MStr(t), rest)) {
      hide ParseValue, ParseString;
      var body := Escaped(t) + "\"" + rest;
      assert Quoted(t) + rest == "\"" + body;
      StringRoundTrip(t, rest);
      StringStart(body);
    }
  }

  lemma LastItem(text: string, m: Meaning, rest: string)
    requires Parses(text, m)
    ensures ParseItems(text + ("]" + rest)) == Some(([m], rest))
  {
    var after := "]" + rest;
    assert Delimited(after) && after[1..] == rest;
    assert ParseValue(text + after) == Some((m, after));
    hide ParseValue;
  }

  lemma NextItem(text: string, m: Meaning, tail: string)
    requires Parses(text, m) && ParseItems(tail).Some?
    ensures ParseItems(text + ("," + tail)) == Some(([m] + ParseItems(tail).value.0, ParseItems(tail).value.1))
  {
    var after := "," + tail;
    assert Delimited(after) && after[1..] == tail;
    assert ParseValue(text + after) == Some((m, after));
    hide ParseValue;
  }

  lemma {:induction false} ItemsParse(items: seq<Json>, rest: string)
    requires items != [] && forall i :: 0 <= i < |items| ==> Valid(items[i]) && Plain(items[i])
    ensures ParseItems(PrintItems(items) + "]" + rest) == Some((MeaningOfItems(items), rest))
    decreases items, 0
  {
    hide ParseItems, Parses, Print, MeaningOf;
    var s := PrintItems(items) + "]" + rest;
    ValueParses(items[0]);
    if |items| == 1 {
      assert s == Print(items[0]) + ("]" + rest);
      LastItem(Print(items[0]), MeaningOf(items[0]), rest);
      assert MeaningOfItems(items) == [MeaningOf(items[0])];
    } else {
      var tail := PrintItems(items[1..]) + "]" + rest;
      assert s == Print(items[0]) + ("," + tail);
      ItemsParse(items[1..], rest);
      NextItem(Print(items[0]), MeaningOf(items[0]), tail);
    }
  }

  /** The part of a meaning that a list of printed properties spells out. */
  function Selected(ps: seq<Printed>, m: map<string, Meaning>): map<string, Meaning>
    requires forall p :: p in ps ==> p.key in m
  {
    if ps == [] then map[] else Selected(ps[1..], m)[ps[0].key := m[ps[0].key]]
  }

  lemma PropertyStart(key: string, text: string, m: Meaning, end: string)
    requires Parses(text, m) && Delimited(end) && end != ""
    ensures var s := Quoted(key) + (":" + (text + end));
      && s != "" && s[0] == '"'
      && ParseString(s[1..]) == Some((key, ":" + (text + end)))
      && ParseValue((":" + (text + end))[1..]) == Some((m, end))
  {
    var after := ":" + (text + end);
    var s := Quoted(key) + after;
    assert s[1..] == Escaped(key) + "\"" + after;
    StringRoundTrip(key, after);
    assert after[1..] == text + end;
    assert ParseValue(text + end) == Some((m, end));
    hide ParseValue, ParseString;
  }

  lemma LastProperty(key: string, text: string, m: Meaning, rest: string)
    requires Parses(text, m)
    ensures ParseFields(Quoted(key) + (":" + (text + ("}" + rest)))) == Some((map[key := m], rest))
  {
    hide ParseValue, ParseString, Parses, Quoted;
    var end := "}" + rest;
    assert end[1..] == rest;
    PropertyStart(key, text, m, end);
  }

  lemma NextProperty(key: string, text: string, m: Meaning, tail: string)
    requires Parses(text, m) && ParseFields(tail).Some?
    ensures ParseFields(Quoted(key) + (":" + (text + ("," + tail))))
         == Some((ParseFields(tail).value.0[key := m], ParseFields(tail).value.1))
  {
    hide ParseValue, ParseString, Parses, Quoted;
    var end := "," + tail;
    assert end[1..] == tail;
    PropertyStart(key, text, m, end);
  }

  lemma {:induction false} PropertiesParse(ps: seq<Printed>, m: map<string, Meaning>, rest: string)
    requires ps != [] && forall p :: p in ps ==> p.key in m && Parses(p.text, m[p.key])
    ensures ParseFields(JoinFields(ps) + "}" + rest) == Some((Selected(ps, m), rest))
  {
    hide ParseFields, Parses, Quoted;
    var s := JoinFields(ps) + "}" + rest;
    var p := ps[0];
    assert p in ps;
    if |ps| == 1 {
      assert s == Quoted(p.key) + (":" + (p.text + ("}" + rest)));
      LastProperty(p.key, p.text, m[p.key], rest);
      assert Selected(ps[1..], m) == map[];
    } else {
      var tail := JoinFields(ps[1..]) + "}" + rest;
      assert s == Quoted(p.key) + (":" + (p.text + ("," + tail)));
      PropertiesParse(ps[1..], m, rest);
      NextProperty(p.key, p.text, m[p.key], tail);
    }
  }

  lemma {:induction false} FieldsParse(fields: seq<Field>)
    requires DistinctKeys(fields) && forall i :: 0 <= i < |fields| ==> Valid(fields[i].value) && Plain(fields[i].value)
    ensures forall p :: p in PrintFields(fields) ==>
      p.key in MeaningOfFields(fields) && Parses(p.text, MeaningOfFields(fields)[p.key])
    ensures forall key :: key in MeaningOfFields(fields) <==> exists p :: p in PrintFields(fields) && p.key == key
    decreases fields, 0
  {
    if fields != [] {
      ValueParses(fields[0].value);
      FieldsParse(fields[1..]);
      KeysOfPrinted(fields[1..]);
      var ps, rest := PrintFields(fields), PrintFields(fields[1..]);
      assert ps == [ps[0]] + rest;
      forall key ensures key in MeaningOfFields(fields) <==> exists p :: p in ps && p.key == key {
        if key in MeaningOfFields(fields) {
          if key == fields[0].key {
            assert ps[0] in ps && ps[0].key == key;
          } else {
            var p :| p in rest && p.key == key;
            assert p in ps;
          }
        }
      }
    }
  }

  lemma {:induction false} KeysOfPrinted(fields: seq<Field>)
    requires forall i :: 0 <= i < |fields| ==> Plain(fields[i].value)
    ensures |PrintFields(fields)| == |fields|
    ensures forall i :: 0 <= i < |fields| ==> PrintFields(fields)[i].key == fields[i].key
  {
    if fields != [] {
      KeysOfPrinted(fields[1..]);
    }
  }

  lemma {:induction false} InsertElements(p: Printed, ps: seq<Printed>)
    ensures multiset(Insert(p, ps)) == multiset(ps) + multiset{p}
  {
    if ps == [] {
    } else if Below(p.key, ps[0].key) {
    } else {
      InsertElements(p, ps[1..]);
      assert ps == [ps[0]] + ps[1..];
    }
  }

  lemma {:induction false} SortedMultiset(ps: seq<Printed>)
    ensures multiset(Sorted(ps)) == multiset(ps)
  {
    if ps != [] {
      SortedMultiset(ps[1..]);
      InsertElements(ps[0], Sorted(ps[1..]));
      assert ps == [ps[0]] + ps[1..];
    }
  }

  lemma SortedElements(ps: seq<Printed>)
    ensures |Sorted(ps)| == |ps| && forall p :: p in Sorted(ps) <==> p in ps
  {
    SortedMultiset(ps);
    hide Sorted;
    assert |multiset(Sorted(ps))| == |multiset(ps)|;
    forall p ensures p in Sorted(ps) <==> p in ps {
      assert p in Sorted(ps) <==> p in multiset(Sorted(ps));
      assert p in ps <==> p in multiset(ps);
    }
  }

  lemma {:induction false} SelectedIsAll(ps: seq<Printed>, m: map<string, Meaning>)
    requires forall p :: p in ps ==> p.key in m
    ensures forall key :: key in Selected(ps, m) <==> exists p :: p in ps && p.key == key
    ensures forall key :: key in Selected(ps, m) ==> key in m && Selected(ps, m)[key] == m[key]
  {
    if ps != [] {
      SelectedIsAll(ps[1..], m);
      assert ps == [ps[0]] + ps[1..];
      forall key ensures key in Selected(ps, m) <==> exists p :: p in ps && p.key == key {
        if key in Selected(ps, m) {
          if key == ps[0].key {
            assert ps[0] in ps;
          } else {
            var p :| p in ps[1..] && p.key == key;
            assert p in ps;
          }
        }
      }
    }
  }

  lemma ObjectStart(body: string)
    ensures StartsWith(body, "}") ==> ParseValue("{" + body) == Some((MObj(map[]), body[1..]))
    ensures !StartsWith(body, "}") && ParseFields(body).Some? ==>
      ParseValue("{" + body) == Some((MObj(ParseFields(body).value.0), ParseFields(body).value.1))
  {
    hide ParseFields, ParseString, ParseItems;
    var s := "{" + body;
    assert s[1..] == body && (StartsWith(body, "}") ==> s[2..] == body[1..]);
    NotAWord(s, "null");
    NotAWord(s, "true");
    NotAWord(s, "false");
  }

  lemma ArrayStart(body: string)
    ensures StartsWith(body, "]") ==> ParseValue("[" + body) == Some((MArr([]), body[1..]))
    ensures !StartsWith(body, "]") && ParseItems(body).Some? ==>
      ParseValue("[" + body) == Some((MArr(ParseItems(body).value.0), ParseItems(body).value.1))
  {
    hide ParseFields, ParseString, ParseItems;
    var s := "[" + body;
    assert s[1..] == body && (StartsWith(body, "]") ==> s[2..] == body[1..]);
    NotAWord(s, "null");
    NotAWord(s, "true");
    NotAWord(s, "false");
  }

  lemma ObjectParses(fields: seq<Field>)
    requires Valid(Obj(fields)) && Plain(Obj(fields))
    ensures Parses(Print(Obj(fields)), MObj(MeaningOfFields(fields)))
    decreases fields, 1
  {
    FieldsParse(fields);
    var m, ps := MeaningOfFields(fields), Sorted(PrintFields(fields));
    SortedElements(PrintFields(fields));
    assert Print(Obj(fields)) == "{" + JoinFields(ps) + "}";
    hide ParseValue, ParseFields, PrintFields, MeaningOfFields, Sorted, Print, Quoted, JoinFields, Parses;
    SelectedIsAll(ps, m);
    assert Selected(ps, m) == m;
    SpelledOutParses(ps, m);
  }

  lemma SpelledOutParses(ps: seq<Printed>, m: map<string, Meaning>)
    requires (forall p :: p in ps ==> p.key in m && Parses(p.text, m[p.key])) && Selected(ps, m) == m
    ensures Parses("{" + JoinFields(ps) + "}", MObj(m))
  {
    forall rest: string | Delimited(rest)
      ensures ParseValue("{" + JoinFields(ps) + "}" + rest) == Some((MObj(m), rest))
    {
      hide ParseValue, Parses;
      assert "{" + JoinFields(ps) + "}" + rest == "{" + (JoinFields(ps) + "}" + rest);
      BracedParses(ps, m, rest);
    }
  }

  lemma BracedParses(ps: seq<Printed>, m: map<string, Meaning>, rest: string)
    requires (forall p :: p in ps ==> p.key in m && Parses(p.text, m[p.key])) && Selected(ps, m) == m
    ensures ParseValue("{" + (JoinFields(ps) + "}" + rest)) == Some((MObj(m), rest))
  {
    hide ParseValue, ParseFields, Quoted, Parses;
    var body := JoinFields(ps) + "}" + rest;
    ObjectStart(body);
    if ps == [] {
      assert body == "}" + rest && body[1..] == rest;
    } else {
      FirstIsQuote(ps, rest);
      PropertiesParse(ps, m, rest);
      hide JoinFields;
      NotAWord(body, "}");
    }
  }

  lemma FirstIsQuote(ps: seq<Printed>, rest: string)
    requires ps != []
    ensures (JoinFields(ps) + "}" + rest)[0] == '"'
  {
    assert JoinFields(ps)[0] == Quoted(ps[0].key)[0];
  }

  lemma EmptyArrayParses(rest: string)
    ensures ParseValue("[]" + rest) == Some((MArr([]), rest))
  {
    var body := "]" + rest;
    assert "[]" + rest == "[" + body && body[1..] == rest;
    ArrayStart(body);
    hide ParseValue;
  }

  lemma BracketedParses(body: string, ms: seq<Meaning>, rest: string)
    requires body != "" && body[0] != ']' && ParseItems(body) == Some((ms, rest))
    ensures ParseValue("[" + body) == Some((MArr(ms), rest))
  {
    hide ParseValue, ParseItems;
    ArrayStart(body);
    NotAWord(body, "]");
  }

  lemma ArrayParses(items: seq<Json>, rest: string)
    requires items != [] && forall i :: 0 <= i < |items| ==> Valid(items[i]) && Plain(items[i])
    requires Parses(Print(items[0]), MeaningOf(items[0]))
    ensures ParseValue("[" + PrintItems(items) + "]" + rest) == Some((MArr(MeaningOfItems(items)), rest))
    decreases items, 1
  {
    hide ParseValue, ParseItems, Print, MeaningOf, MeaningOfItems, Parses, PrintItems;
    var body := PrintItems(items) + "]" + rest;
    assert body == PrintItems(items) + ("]" + rest);
    FirstIsNoBracket(items, "]" + rest);
    ItemsParse(items, rest);
    BracketedParses(body, MeaningOfItems(items), rest);
    assert "[" + PrintItems(items) + "]" + rest == "[" + body;
  }

  /** An array's text does not start with a closing bracket, because its first item can be read. */
  lemma BracketParsesToNothing(text: string)
    requires text != "" && text[0] == ']'
    ensures ParseValue(text).None?
  {
    NotAWord(text, "null");
    NotAWord(text, "true");
    NotAWord(text, "false");
    hide StartsWith, ParseString, ParseItems, ParseFields;
  }

  lemma FirstIsNoBracket(items: seq<Json>, tail: string)
    requires items != [] && forall i :: 0 <= i < |items| ==> Plain(items[i])
    requires Valid(items[0]) && Parses(Print(items[0]), MeaningOf(items[0]))
    ensures PrintItems(items) + tail != "" && (PrintItems(items) + tail)[0] != ']'
  {
    var text := Print(items[0]);
    assert ParseValue(text + "") == Some((MeaningOf(items[0]), ""));
    assert text + "" == text;
    if text != "" && text[0] == ']' {
      BracketParsesToNothing(text);
    }
    assert text != "";
    hide ParseValue, Print, MeaningOf;
    assert PrintItems(items)[0] == text[0];
  }

  /** Reading the printed text of a valid value gives back its meaning, and stops right after it. */
  lemma {:induction false} ValueParses(v: Json)
    requires Valid(v) && Plain(v)
    ensures Parses(Print(v), MeaningOf(v))
    decreases v
  {
    match v
    case Null => WordParses("null", MNull);
    case Bool(b) => WordParses(if b then "true" else "false", MBool(b));
    case Num(token) => NumberParses(token);
    case Str(s) => TextParses(s);
    case Arr(items) =>
      if items != [] {
        ValueParses(items[0]);
      }
      forall rest: string | Delimited(rest) ensures ParseValue(Print(v) + rest) == Some((MeaningOf(v), rest)) {
        if items == [] {
          EmptyArrayParses(rest);
        } else {
          ArrayParses(items, rest);
        }
      }
    case Obj(fields) =>
      ObjectParses(fields);
  }

  // ---- The text determines the value up to key order ----

  /** Two valid values that print alike mean the same. */
  lemma PrintIsInjective(v: Json, w: Json)
    requires Valid(v) && Valid(w) && Plain(v) && Plain(w) && Print(v) == Print(w)
    ensures MeaningOf(v) == MeaningOf(w)
  {
    ValueParses(v);
    ValueParses(w);
    hide ParseValue, Print, MeaningOf;
    assert ParseValue(Print(v) + "") == Some((MeaningOf(v), ""));
    assert ParseValue(Print(w) + "") == Some((MeaningOf(w), ""));
  }

  predicate KeySorted(ps: seq<Printed>) {
    forall i, j :: 0 <= i < j < |ps| ==> Below(ps[i].key, ps[j].key)
  }

  predicate DistinctPrinted(ps: seq<Printed>) {
    forall i, j :: 0 <= i < j < |ps| ==> ps[i].key != ps[j].key
  }

  lemma {:induction false} InsertSorts(p: Printed, ps: seq<Printed>)
    requires KeySorted(ps) && forall q :: q in ps ==> q.key != p.key
    ensures KeySorted(Insert(p, ps))
  {
    if ps == [] {
    } else if Below(p.key, ps[0].key) {
      forall i | 1 <= i < |ps| ensures Below(p.key, ps[i].key) {
        BelowTransitive(p.key, ps[0].key, ps[i].key);
      }
    } else {
      BelowTotal(p.key, ps[0].key);
      InsertSorts(p, ps[1..]);
      InsertElements(p, ps[1..]);
      var r := Insert(p, ps[1..]);
      forall q | q in r ensures Below(ps[0].key, q.key) {
        assert q in multiset(r);
        assert q == p || q in ps[1..];
      }
    }
  }

  lemma {:induction false} SortedSorts(ps: seq<Printed>)
    requires DistinctPrinted(ps)
    ensures KeySorted(Sorted(ps))
  {
    if ps != [] {
      SortedSorts(ps[1..]);
      SortedElements(ps[1..]);
      InsertSorts(ps[0], Sorted(ps[1..]));
    }
  }

  /** The text of an object lists all its properties, strictly ascending by the code units of their keys. */
  lemma ObjectsListKeysInOrder(fields: seq<Field>)
    requires Valid(Obj(fields))
    ensures Plain(Obj(fields))
    ensures var ps := Sorted(PrintFields(fields));
      && Print(Obj(fields)) == "{" + JoinFields(ps) + "}"
      && multiset(ps) == multiset(PrintFields(fields))
      && forall i, j :: 0 <= i < j < |ps| ==> UnitsBelow(Units(ps[i].key), Units(ps[j].key))
  {
    ValidIsPlain(Obj(fields));
    KeysOfPrinted(fields);
    var ps := Sorted(PrintFields(fields));
    SortedMultiset(PrintFields(fields));
    SortedSorts(PrintFields(fields));
    forall i, j | 0 <= i < j < |ps| ensures UnitsBelow(Units(ps[i].key), Units(ps[j].key)) {
      BelowIsCodeUnitOrder(ps[i].key, ps[j].key);
    }
  }

  /** A strictly sorted list is determined by its elements. */
  lemma {:induction false} SortedIsUnique(a: seq<Printed>, b: seq<Printed>)
    requires KeySorted(a) && KeySorted(b) && forall p :: p in a <==> p in b
    ensures a == b
  {
    if a == [] {
      SomeElement(b);
    } else {
      assert a[0] in b && (b == [] || b[0] in a);
      LeastIsFirst(a, b[0]);
      LeastIsFirst(b, a[0]);
      BelowTotal(a[0].key, b[0].key);
      assert a[0] == b[0];
      forall p ensures p in a[1..] <==> p in b[1..] {
        RestHas(a, p);
        RestHas(b, p);
      }
      SortedIsUnique(a[1..], b[1..]);
    }
  }

  lemma SomeElement(ps: seq<Printed>)
    ensures ps != [] ==> exists p :: p in ps
  {
    if ps != [] {
      assert ps[0] in ps;
    }
  }

  lemma LeastIsFirst(ps: seq<Printed>, p: Printed)
    requires KeySorted(ps) && p in ps
    ensures p == ps[0] || Below(ps[0].key, p.key)
  {
  }

  lemma RestHas(ps: seq<Printed>, p: Printed)
    requires KeySorted(ps) && ps != []
    ensures p in ps[1..] <==> p in ps && p != ps[0]
  {
    BelowIrreflexive(ps[0].key);
    assert ps == [ps[0]] + ps[1..];
  }

  /** Which printed property a key has. */
  lemma {:induction false} PrintedOf(fields: seq<Field>, p: Printed)
    requires forall i :: 0 <= i < |fields| ==> Plain(fields[i].value)
    ensures p in PrintFields(fields) <==>
      exists i :: 0 <= i < |fields| && p == Printed(fields[i].key, Print(fields[i].value))
  {
    if fields != [] {
      PrintedOf(fields[1..], p);
      assert PrintFields(fields) == [Printed(fields[0].key, Print(fields[0].value))] + PrintFields(fields[1..]);
      if exists i :: 0 <= i < |fields| && p == Printed(fields[i].key, Print(fields[i].value)) {
        var i :| 0 <= i < |fields| && p == Printed(fields[i].key, Print(fields[i].value));
        if i > 0 {
          assert fields[1..][i - 1] == fields[i];
        }
      }
      if j :| 0 <= j < |fields[1..]| && p == Printed(fields[1..][j].key, Print(fields[1..][j].value)) {
        assert fields[j + 1] == fields[1..][j];
      }
    }
  }

  lemma {:induction false} MeaningOfField(fields: seq<Field>, key: string)
    requires DistinctKeys(fields) && forall i :: 0 <= i < |fields| ==> Valid(fields[i].value)
    ensures key in MeaningOfFields(fields) <==> exists i :: 0 <= i < |fields| && fields[i].key == key
    ensures forall i :: 0 <= i < |fields| && fields[i].key == key ==>
      key in MeaningOfFields(fields) && MeaningOfFields(fields)[key] == MeaningOf(fields[i].value)
  {
    if fields != [] {
      MeaningOfField(fields[1..], key);
      if key in MeaningOfFields(fields) && key != fields[0].key {
        var j :| 0 <= j < |fields[1..]| && fields[1..][j].key == key;
        assert fields[j + 1].key == key;
      }
      forall i | 0 <= i < |fields| && fields[i].key == key
        ensures key in MeaningOfFields(fields) && MeaningOfFields(fields)[key] == MeaningOf(fields[i].value)
      {
        if i > 0 {
          assert fields[1..][i - 1] == fields[i];
        }
      }
    }
  }

  /** Every property of one object is printed by the other when both mean the same. */
  lemma {:induction false} SameProperties(f: seq<Field>, g: seq<Field>, p: Printed)
    requires Valid(Obj(f)) && Valid(Obj(g)) && Plain(Obj(f)) && Plain(Obj(g))
    requires MeaningOfFields(f) == MeaningOfFields(g) && p in PrintFields(f)
    ensures p in PrintFields(g)
    decreases f, 1
  {
    PrintedOf(f, p);
    var i :| 0 <= i < |f| && p == Printed(f[i].key, Print(f[i].value));
    MeaningOfField(f, f[i].key);
    MeaningOfField(g, f[i].key);
    var j :| 0 <= j < |g| && g[j].key == f[i].key;
    MeaningDeterminesPrint(f[i].value, g[j].value);
    assert p == Printed(g[j].key, Print(g[j].value));
    PrintedOf(g, p);
  }

  lemma {:induction false} MeaningDeterminesItems(a: seq<Json>, b: seq<Json>)
    requires (forall i :: 0 <= i < |a| ==> Valid(a[i]) && Plain(a[i])) && (forall i :: 0 <= i < |b| ==> Valid(b[i]) && Plain(b[i]))
    requires MeaningOfItems(a) == MeaningOfItems(b)
    ensures PrintItems(a) == PrintItems(b)
    decreases a, 1
  {
    if a == [] {
    } else {
      assert MeaningOfItems(a)[0] == MeaningOfItems(b)[0];
      assert MeaningOfItems(a)[1..] == MeaningOfItems(a[1..]) && MeaningOfItems(b)[1..] == MeaningOfItems(b[1..]);
      MeaningDeterminesPrint(a[0], b[0]);
      MeaningDeterminesItems(a[1..], b[1..]);
    }
  }

  lemma MeaningDeterminesObject(f: seq<Field>, g: seq<Field>)
    requires Valid(Obj(f)) && Valid(Obj(g)) && Plain(Obj(f)) && Plain(Obj(g))
    requires forall p :: p in PrintFields(f) <==> p in PrintFields(g)
    ensures Print(Obj(f)) == Print(Obj(g))
  {
    KeysOfPrinted(f);
    KeysOfPrinted(g);
    SortedElements(PrintFields(f));
    SortedElements(PrintFields(g));
    SortedSorts(PrintFields(f));
    SortedSorts(PrintFields(g));
    SortedIsUnique(Sorted(PrintFields(f)), Sorted(PrintFields(g)));
  }

  /** Values that mean the same print alike, in whatever order their keys were written. */
  lemma {:induction false} MeaningDeterminesPrint(v: Json, w: Json)
    requires Valid(v) && Valid(w) && Plain(v) && Plain(w) && MeaningOf(v) == MeaningOf(w)
    ensures Print(v) == Print(w)
    decreases v
  {
    match v
    case Arr(items) => MeaningDeterminesItems(items, w.items);
    case Obj(fields) =>
      forall p ensures p in PrintFields(fields) <==> p in PrintFields(w.fields) {
        if p in PrintFields(fields) {
          SameProperties(fields, w.fields, p);
        }
        if p in PrintFields(w.fields) {
          SamePropertiesBack(fields, w.fields, p);
        }
      }
      MeaningDeterminesObject(fields, w.fields);
    case _ =>
  }

  lemma {:induction false} SamePropertiesBack(f: seq<Field>, g: seq<Field>, p: Printed)
    requires Valid(Obj(f)) && Valid(Obj(g)) && Plain(Obj(f)) && Plain(Obj(g))
    requires MeaningOfFields(f) == MeaningOfFields(g) && p in PrintFields(g)
    ensures p in PrintFields(f)
    decreases f, 1
  {
    PrintedOf(g, p);
    var j :| 0 <= j < |g| && p == Printed(g[j].key, Print(g[j].value));
    MeaningOfField(g, g[j].key);
    MeaningOfField(f, g[j].key);
    var i :| 0 <= i < |f| && f[i].key == g[j].key;
    MeaningDeterminesPrint(f[i].value, g[j].value);
    assert p == Printed(f[i].key, Print(f[i].value));
    PrintedOf(f, p);
  }

  /** The canonical text is the value, up to the order of its keys. */
  lemma CanonicalTextIsIdentity(v: Json, w: Json)
    requires Valid(v) && Valid(w)
    ensures Canonicalize(v).Ok? && Canonicalize(w).Ok?
    ensures Canonicalize(v) == Canonicalize(w) <==> MeaningOf(v) == MeaningOf(w)
  {
    ValidIsPlain(v);
    ValidIsPlain(w);
    if Print(v) == Print(w) {
      PrintIsInjective(v, w);
    }
    if MeaningOf(v) == MeaningOf(w) {
      MeaningDeterminesPrint(v, w);
    }
    hide Print, MeaningOf;
  }

  // ---- Retry decisions ----

  datatype OperationClass = Read | Write | FundsWrite
  datatype Outcome = Success | DefinitiveFailure | RetryableFailure | OutcomeUnknown
  datatype LookupState = NotChecked | Found | NotFound | Unavailable
  datatype Decision = ReturnStoredResult | Stop | BudgetExhausted | QueryByIdempotencyKey | RetrySameKey

  /** `decideRetry`; a budget of n retries allows n + 1 attempts. */
  function DecideRetry(attemptsMade: nat, retryBudget: nat, outcome: Outcome, lookup: LookupState): Decision {
    if lookup == Found then ReturnStoredResult
    else if outcome in {Success, DefinitiveFailure} then Stop
    else if attemptsMade >= retryBudget + 1 then BudgetExhausted
    else if outcome == OutcomeUnknown then if lookup == NotFound then RetrySameKey else QueryByIdempotencyKey
    else RetrySameKey
  }

  /** While budget is left, the same key is sent again exactly when nothing ran; when nobody knows, it is looked up first. */
  lemma DecisionsMean(attemptsMade: nat, retryBudget: nat, outcome: Outcome, lookup: LookupState)
    ensures var decision := DecideRetry(attemptsMade, retryBudget, outcome, lookup);
      && (decision == ReturnStoredResult <==> lookup == Found)
      && (decision == Stop <==> lookup != Found && (outcome == Success || outcome == DefinitiveFailure))
      && (decision == RetrySameKey <==>
            && attemptsMade <= retryBudget
            && ((outcome == RetryableFailure && lookup != Found) || (outcome == OutcomeUnknown && lookup == NotFound)))
      && (decision == QueryByIdempotencyKey <==>
            attemptsMade <= retryBudget && outcome == OutcomeUnknown && (lookup == NotChecked || lookup == Unavailable))
  {
  }

  /** The condition under which `assertFundsRetrySafe` throws. */
  predicate UnsafeFundsRetry(kind: OperationClass, attemptsMade: nat, retryBudget: nat, outcome: Outcome, lookup: LookupState) {
    && kind == FundsWrite
    && outcome == OutcomeUnknown && DecideRetry(attemptsMade, retryBudget, outcome, lookup) == RetrySameKey
    && lookup != NotFound
  }

  /** What one attempt came to, and what a lookup said about it. */
  datatype Observation = Observation(outcome: Outcome, lookup: LookupState)

  /** Attempts made when each attempt is repeated exactly while the decision is to retry. */
  function AttemptsMade(retryBudget: nat, observations: seq<Observation>, attempt: nat): nat
    decreases |observations|
  {
    if observations == [] then attempt
    else
      var o := observations[0];
      if DecideRetry(attempt, retryBudget, o.outcome, o.lookup) == RetrySameKey
        then AttemptsMade(retryBudget, observations[1..], attempt + 1)
      else attempt
  }

  /** Following the decisions never makes more than one attempt beyond the retry budget. */
  lemma {:induction false} RetriesStayInBudget(retryBudget: nat, observations: seq<Observation>, attempt: nat)
    requires attempt <= retryBudget + 1
    ensures AttemptsMade(retryBudget, observations, attempt) <= retryBudget + 1
    decreases |observations|
  {
    if observations == [] {
    } else if DecideRetry(attempt, retryBudget, observations[0].outcome, observations[0].lookup) == RetrySameKey {
      RetriesStayInBudget(retryBudget, observations[1..], attempt + 1);
    }
  }

  /** The funds guard never fires: an unknown outcome is only ever retried after an authoritative NOT_FOUND. */
  lemma FundsRetriesAreSafe(kind: OperationClass, attemptsMade: nat, retryBudget: nat, outcome: Outcome, lookup: LookupState)
    ensures !UnsafeFundsRetry(kind, attemptsMade, retryBudget, outcome, lookup)
    ensures outcome == OutcomeUnknown && DecideRetry(attemptsMade, retryBudget, outcome, lookup) == RetrySameKey
      ==> lookup == NotFound && attemptsMade <= retryBudget
  {
  }
}
