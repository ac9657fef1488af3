/** The JavaScript values the application handles: the JSON data that
    `response.json()` and `JSON.parse` produce, the conversions it applies to
    them (truthiness, `String(v)`, `JSON.stringify`, property access), and the
    values a `catch` clause can receive. */
module Js {
  import opened Common
  import opened Strings

  /** A JSON value.  Numbers are integers in this model. */
  datatype Json =
    | JNull
    | JBool(b: bool)
    | JNum(n: int)
    | JStr(s: string)
    | JArr(items: seq<Json>)
    | JObj(fields: seq<(string, Json)>)

  /** What a `catch (error)` clause can observe: an `Error` object (its
      `name` and `message`), or any other thrown value. */
  datatype Thrown = ErrorValue(name: string, message: string) | NonErrorValue(value: Json) {
    /** `error instanceof Error` */
    predicate IsError() { ErrorValue? }
    /** `error instanceof TypeError` */
    predicate IsTypeError() { ErrorValue? && name == "TypeError" }
  }

  /** The thrown value of `new Error(message)`. */
  function PlainError(message: string): (t: Thrown)
    ensures t.IsError() && !t.IsTypeError() && t.message == message
  {
    ErrorValue("Error", message)
  }

  /** `error instanceof Error ? error.message : default` */
  function MessageOr(t: Thrown, default: string): (m: string)
    ensures t.IsError() ==> m == t.message
    ensures !t.IsError() ==> m == default
  {
    match t
    case ErrorValue(_, msg) => msg
    case NonErrorValue(_) => default
  }

  // ---------------------------------------------------------------------------
  // truthiness and String(v)

  /** `!!v`: `null`, `false`, `0` and `""` are falsy, everything else truthy. */
  predicate Truthy(v: Json) {
    match v
    case JNull => false
    case JBool(b) => b
    case JNum(n) => n != 0
    case JStr(s) => s != ""
    case JArr(_) => true
    case JObj(_) => true
  }

  /** `!!v` for a value that may be `undefined` (`None`). */
  predicate TruthyOpt(v: Option<Json>) {
    v.Some? && Truthy(v.value)
  }

  /** `String(v)`: arrays are joined with `,` (with `null` elements as the
      empty string) and every object is `[object Object]`. */
  function ToStr(v: Json): string
    decreases v, 0
  {
    match v
    case JNull => "null"
    case JBool(b) => if b then "true" else "false"
    case JNum(n) => IntToString(n)
    case JStr(s) => s
    case JArr(items) => Join(seq(|items|, k requires 0 <= k < |items| => ElementStr(items[k])), ',')
    case JObj(_) => "[object Object]"
  }

  function ElementStr(v: Json): string
    decreases v, 1
  {
    if v.JNull? then "" else ToStr(v)
  }

  /** `v.toString()` on a value that may be `null` or `undefined`, with
      `|| ''`: what a service shows as an order number returned by the backend. */
  function ToStrOrEmpty(v: Option<Json>): (s: string)
    ensures v.Some? && v.value.JStr? ==> s == v.value.s
    ensures v.None? || v.value.JNull? ==> s == ""
  {
    if v.None? || v.value.JNull? then "" else ToStr(v.value)
  }

  // ---------------------------------------------------------------------------
  // property access

  /** `v[key]` with `undefined` as `None`: the last field of that name wins,
      as in a parsed JSON object. */
  function Property(v: Json, key: string): (r: Option<Json>)
    ensures r.Some? ==> v.JObj? && exists k :: 0 <= k < |v.fields| && v.fields[k] == (key, r.value)
  {
    if v.JObj? then Lookup(v.fields, key) else None
  }

  /** The `TypeError` reading a property of `null` throws (the V8 wording). */
  function NullPropertyError(key: string): (t: Thrown)
    ensures t.IsTypeError() && t.message == NullReadPrefix + key + "')"
  {
    ErrorValue("TypeError", NullReadPrefix + key + "')")
  }

  const NullReadPrefix: string := "Cannot read properties of null (reading '"

  /** The message of `NullPropertyError(key)` has no '4' and no letter z
      beyond those of `key`. */
  lemma NullMessageLacks(key: string, c: char)
    requires c !in key && (c == '4' || c == 'z' || c == 'Z')
    ensures c !in NullPropertyError(key).message
  {
    NullPrefixLetters();
  }

  /** Every character of `NullReadPrefix` is a lower-case letter other than
      z, a space, `C`, `(` or a quote. */
  lemma NullPrefixLetters()
    ensures forall k :: 0 <= k < |NullReadPrefix| ==>
      ('a' <= NullReadPrefix[k] <= 'y') || NullReadPrefix[k] == ' ' || NullReadPrefix[k] == 'C' ||
      NullReadPrefix[k] == '(' || NullReadPrefix[k] == '\''
  {
  }

  /** `v.key` as the program evaluates it: on `null` it throws, on any other
      value it is `Property(v, key)`. */
  function ReadProperty(v: Json, key: string): (r: Result<Option<Json>, Thrown>)
    ensures r.Err? <==> v.JNull?
    ensures r.Err? ==> r.error == NullPropertyError(key)
    ensures r.Ok? ==> r.value == Property(v, key)
  {
    if v.JNull? then Err(NullPropertyError(key)) else Ok(Property(v, key))
  }

  function Lookup(fields: seq<(string, Json)>, key: string): (r: Option<Json>)
    ensures r.Some? ==> exists k :: 0 <= k < |fields| && fields[k] == (key, r.value)
    ensures r.None? <==> forall k :: 0 <= k < |fields| ==> fields[k].0 != key
  {
    if |fields| == 0 then None
    else if fields[|fields| - 1].0 == key then Some(fields[|fields| - 1].1)
    else Lookup(fields[..|fields| - 1], key)
  }

  /** Adding a field to the end of an object shadows earlier fields of that name. */
  lemma LookupAppend(fields: seq<(string, Json)>, k: string, v: Json, key: string)
    ensures Lookup(fields + [(k, v)], key) == if k == key then Some(v) else Lookup(fields, key)
  {
    assert (fields + [(k, v)])[..|fields|] == fields;
  }

  /** A field no later field shadows is the value of its name. */
  lemma {:induction false} LookupAt(fields: seq<(string, Json)>, i: int)
    requires 0 <= i < |fields|
    requires forall j :: i < j < |fields| ==> fields[j].0 != fields[i].0
    ensures Lookup(fields, fields[i].0) == Some(fields[i].1)
    decreases |fields|
  {
    if i < |fields| - 1 {
      var init := fields[..|fields| - 1];
      assert init[i] == fields[i];
      LookupAt(init, i);
    }
  }

  /** `v?.[key]` on a value that may be `undefined`. */
  function PropertyOpt(v: Option<Json>, key: string): Option<Json> {
    if v.Some? then Property(v.value, key) else None
  }

  // ---------------------------------------------------------------------------
  // JSON.stringify

  function HexLower(d: int): char
    requires 0 <= d < 16
  {
    if d < 10 then ('0' as int + d) as char else ('a' as int + d - 10) as char
  }

  /** How `JSON.stringify` writes one character of a string. */
  function EscapeChar(c: char): (r: string)
    ensures 1 <= |r| && (|r| == 1 <==> r == [c])
    ensures r[0] == '\\' || r == [c]
  {
    if c == '"' then "\\\""
    else if c == '\\' then "\\\\"
    else if c == '\U{0008}' then "\\b"
    else if c == '\U{000C}' then "\\f"
    else if c == '\n' then "\\n"
    else if c == '\r' then "\\r"
    else if c == '\t' then "\\t"
    else if (c as int) < 0x20 then ['\\', 'u', '0', '0', HexLower(c as int / 16), HexLower(c as int % 16)]
    else [c]
  }

  function Escape(s: string): string {
    if |s| == 0 then "" else EscapeChar(s[0]) + Escape(s[1..])
  }

  /** A JSON string literal. */
  function Quote(s: string): string {
    "\"" + Escape(s) + "\""
  }

  /** `JSON.stringify(v)`, without whitespace. */
  function Stringify(v: Json): string
    decreases v, 0
  {
    match v
    case JNull => "null"
    case JBool(b) => if b then "true" else "false"
    case JNum(n) => IntToString(n)
    case JStr(s) => Quote(s)
    case JArr(items) =>
      "[" + Join(seq(|items|, k requires 0 <= k < |items| => Stringify(items[k])), ',') + "]"
    case JObj(fields) =>
      "{" + Join(seq(|fields|, k requires 0 <= k < |fields| => MemberText(fields[k].0, fields[k].1)), ',') + "}"
  }

  function MemberText(key: string, v: Json): string
    decreases v, 1
  {
    Quote(key) + ":" + Stringify(v)
  }

  // ---------------------------------------------------------------------------
  // reading a string literal back

  function HexCharValue(c: char): (v: Option<nat>)
    ensures v.Some? ==> v.value < 16
  {
    if '0' <= c <= '9' then Some(c as int - '0' as int)
    else if 'a' <= c <= 'f' then Some(c as int - 'a' as int + 10)
    else if 'A' <= c <= 'F' then Some(c as int - 'A' as int + 10)
    else None
  }

  /** The character a `\uXXXX` escape spells; `None` for a surrogate half,
      which a Dafny `char` cannot hold. */
  function UnicodeEscape(h: string): Option<char>
    requires |h| == 4
  {
    CodeUnitChar(HexCharValue(h[0]), HexCharValue(h[1]), HexCharValue(h[2]), HexCharValue(h[3]))
  }

  /** The character of four hexadecimal digit values, most significant first. */
  function CodeUnitChar(d0: Option<nat>, d1: Option<nat>, d2: Option<nat>, d3: Option<nat>): Option<char>
    requires d0.Some? ==> d0.value < 16
    requires d1.Some? ==> d1.value < 16
    requires d2.Some? ==> d2.value < 16
    requires d3.Some? ==> d3.value < 16
  {
    if d0.None? || d1.None? || d2.None? || d3.None? then None
    else
      var n := ((d0.value * 16 + d1.value) * 16 + d2.value) * 16 + d3.value;
      if 0xD800 <= n < 0xE000 then None else Some(n as char)
  }

  /** Reads the body of a JSON string literal up to and including its closing
      quote, as `JSON.parse` does; gives the characters and the length read. */
  function ReadStringBody(t: string): (r: Option<(string, nat)>)
    ensures r.Some? ==> 1 <= r.value.1 <= |t|
    decreases |t|
  {
    if |t| == 0 then None
    else if t[0] == '"' then Some(("", 1))
    else if (t[0] as int) < 0x20 then None
    else if t[0] != '\\' then Prepend(t[0], 1, ReadStringBody(t[1..]))
    else if |t| < 2 then None
    else
      var e := t[1];
      if e == '"' || e == '\\' || e == '/' then Prepend(e, 2, ReadStringBody(t[2..]))
      else if e == 'b' then Prepend('\U{0008}', 2, ReadStringBody(t[2..]))
      else if e == 'f' then Prepend('\U{000C}', 2, ReadStringBody(t[2..]))
      else if e == 'n' then Prepend('\n', 2, ReadStringBody(t[2..]))
      else if e == 'r' then Prepend('\r', 2, ReadStringBody(t[2..]))
      else if e == 't' then Prepend('\t', 2, ReadStringBody(t[2..]))
      else if e == 'u' && |t| >= 6 then
        match UnicodeEscape(t[2..6])
        case None => None
        case Some(c) => Prepend(c, 6, ReadStringBody(t[6..]))
      else None
  }

  function Prepend(c: char, used: nat, r: Option<(string, nat)>): Option<(string, nat)> {
    match r
    case None => None
    case Some((s, n)) => Some(([c] + s, used + n))
  }

  /** Reads a JSON string literal at the start of `t`. */
  function ReadString(t: string): Option<(string, nat)> {
    if |t| > 0 && t[0] == '"' then
      match ReadStringBody(t[1..])
      case None => None
      case Some((s, n)) => Some((s, n + 1))
    else None
  }

  lemma HexLowerValue(d: int)
    requires 0 <= d < 16
    ensures HexCharValue(HexLower(d)) == Some(d)
  {
  }

  lemma ReadEscapeChar(c: char, t: string)
    ensures ReadStringBody(EscapeChar(c) + t) == Prepend(c, |EscapeChar(c)|, ReadStringBody(t))
  {
    var e := EscapeChar(c);
    if |e| == 1 {
      ReadPlainChar(c, t);
    } else if |e| == 2 {
      ReadShortEscape(c, t);
    } else {
      ReadUnicodeEscape(c, t);
    }
  }

  lemma ReadPlainChar(c: char, t: string)
    requires EscapeChar(c) == [c]
    ensures ReadStringBody([c] + t) == Prepend(c, 1, ReadStringBody(t))
  {
    var u := [c] + t;
    assert c != '"' && c != '\\' && (c as int) >= 0x20;
    assert u[0] == c && u[1..] == t;
  }

  lemma ReadShortEscape(c: char, t: string)
    requires |EscapeChar(c)| == 2
    ensures ReadStringBody(EscapeChar(c) + t) == Prepend(c, 2, ReadStringBody(t))
  {
    var e := EscapeChar(c);
    var u := e + t;
    assert u[0] == '\\' && u[1] == e[1] && u[2..] == t;
    if c == '"' || c == '\\' {
      assert e[1] == c;
    } else if c == '\U{0008}' {
      assert e[1] == 'b';
    } else if c == '\U{000C}' {
      assert e[1] == 'f';
    } else if c == '\n' {
      assert e[1] == 'n';
    } else if c == '\r' {
      assert e[1] == 'r';
    } else {
      assert e[1] == 't';
    }
  }

  lemma ReadUnicodeEscape(c: char, t: string)
    requires |EscapeChar(c)| > 2
    ensures ReadStringBody(EscapeChar(c) + t) == Prepend(c, 6, ReadStringBody(t))
  {
    var n := c as int;
    var h := ['0', '0', HexLower(n / 16), HexLower(n % 16)];
    assert EscapeChar(c) == ['\\', 'u'] + h;
    UnicodeEscapeLow(c);
    ReadUnicodeAt(h, c, t);
  }

  /** Reading back the four hex digits written for a control character. */
  lemma UnicodeEscapeLow(c: char)
    requires (c as int) < 0x20
    ensures UnicodeEscape(['0', '0', HexLower(c as int / 16), HexLower(c as int % 16)]) == Some(c)
  {
    var n := c as int;
    HexLowerValue(n / 16);
    HexLowerValue(n % 16);
  }

  lemma ReadUnicodeAt(h: string, c: char, t: string)
    requires |h| == 4 && UnicodeEscape(h) == Some(c)
    ensures ReadStringBody(['\\', 'u'] + h + t) == Prepend(c, 6, ReadStringBody(t))
  {
    var u := ['\\', 'u'] + h + t;
    assert u[0] == '\\' && u[1] == 'u' && u[2..6] == h && u[6..] == t;
  }

  lemma {:induction false} ReadEscape(s: string, rest: string)
    ensures ReadStringBody(Escape(s) + "\"" + rest) == Some((s, |Escape(s)| + 1))
    decreases |s|
  {
    if |s| == 0 {
      assert Escape(s) + "\"" + rest == "\"" + rest;
    } else {
      ReadEscape(s[1..], rest);
      ReadEscapeStep(s, rest);
    }
  }

  /** One more escaped character in front of a body that reads back. */
  lemma ReadEscapeStep(s: string, rest: string)
    requires |s| > 0
    requires ReadStringBody(Escape(s[1..]) + "\"" + rest) == Some((s[1..], |Escape(s[1..])| + 1))
    ensures ReadStringBody(Escape(s) + "\"" + rest) == Some((s, |Escape(s)| + 1))
  {
    EscapeSplit(s, rest);
    ReadAfterEscapeChar(s[0], Escape(s[1..]) + "\"" + rest, s[1..], |Escape(s[1..])| + 1);
    assert [s[0]] + s[1..] == s;
  }

  lemma EscapeSplit(s: string, rest: string)
    requires |s| > 0
    ensures Escape(s) + "\"" + rest == EscapeChar(s[0]) + (Escape(s[1..]) + "\"" + rest)
    ensures |Escape(s)| == |EscapeChar(s[0])| + |Escape(s[1..])|
  {
    var e, t := EscapeChar(s[0]), Escape(s[1..]);
    assert Escape(s) == e + t;
    assert (e + t) + "\"" + rest == e + (t + "\"" + rest);
  }

  lemma ReadAfterEscapeChar(c: char, t: string, v: string, n: nat)
    requires ReadStringBody(t) == Some((v, n))
    ensures ReadStringBody(EscapeChar(c) + t) == Some(([c] + v, |EscapeChar(c)| + n))
  {
    ReadEscapeChar(c, t);
  }

  /** `JSON.parse` reads back the string literal `JSON.stringify` writes, and
      stops exactly at its end, whatever follows. */
  lemma ReadQuote(s: string, rest: string)
    ensures ReadString(Quote(s) + rest) == Some((s, |Quote(s)|))
  {
    var t := Quote(s) + rest;
    assert t[1..] == Escape(s) + "\"" + rest;
    ReadEscape(s, rest);
  }

  /** Distinct strings have distinct JSON literals. */
  lemma QuoteInjective(s: string, t: string)
    requires Quote(s) == Quote(t)
    ensures s == t
  {
    ReadQuote(s, "");
    ReadQuote(t, "");
    assert Quote(s) + "" == Quote(s) && Quote(t) + "" == Quote(t);
  }
}
