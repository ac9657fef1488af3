/** The production-order service (`src/services/productionOrderService.ts`):
    date and time text for the SAP backend, the credentials every call reads
    from session storage, the list queries (which fail with a wrapped error)
    and the mutating calls (which never fail: every error becomes a result
    with `success: false` and a Bulgarian message).

    A call's network part is its argument: `response`/`post` is what
    `apiClient.get`/`apiClient.post` resolves or rejects with. */
module ProductionOrderService {
  import opened Common
  import opened Strings
  import opened Js
  import opened Base64
  import opened SessionStorage
  import FormUrl
  import ApiClient

  const Endpoint: string := "/api/sap"

  const CredentialsNotFound: string :=
    "SAP credentials not found. Please provide username and password via the credentials modal."
  const EmptyCredentialsMessage: string := "Username or password is empty"
  const MissingCredentialsMessage: string := "Липсват креденциали за вход"

  // ---------------------------------------------------------------------------
  // date and time text

  /** The fields of a `Date` that `formatDateForBackend` reads; `month0` is
      `getMonth()`, counted from 0. */
  datatype DateFields = DateFields(year: int, month0: int, day: int, hours: int, minutes: int, seconds: int)

  predicate IsCalendarDate(d: DateFields) {
    d.year >= 0 && 0 <= d.month0 <= 11 && 1 <= d.day <= 31
    && 0 <= d.hours <= 23 && 0 <= d.minutes <= 59 && 0 <= d.seconds <= 59
  }

  /** `String(n).padStart(2, '0')` */
  function Two(n: int): string {
    PadStart(IntToString(n), 2, '0')
  }

  /** `formatDateForBackend(date)`: `Y-MM-DDTHH:mm:ss`. */
  function FormatDateForBackend(d: DateFields): string {
    DateText(IntToString(d.year), Two(d.month0 + 1), Two(d.day), Two(d.hours), Two(d.minutes), Two(d.seconds))
  }

  /** `${year}-${month}-${day}T${hours}:${minutes}:${seconds}` */
  function DateText(ys: string, mo: string, da: string, h: string, mi: string, se: string): string {
    ys + "-" + mo + "-" + da + "T" + h + ":" + mi + ":" + se
  }

  /** A number below 100 takes exactly two digits and `parseInt` reads it back. */
  lemma TwoDigits(n: int)
    requires 0 <= n < 100
    ensures |Two(n)| == 2 && ParseInt(Two(n)) == Some(n)
  {
    TwoDigitsShape(n);
    ParseTwoDigits(Two(n));
  }

  lemma TwoDigitsShape(n: int)
    requires 0 <= n < 100
    ensures var t := Two(n); |t| == 2 && IsDigit(t[0]) && IsDigit(t[1]) && DigitsValue(t) == n
  {
    var d := NatToString(n);
    assert IntToString(n) == d;
    if n < 10 {
      assert d == [DigitChar(n)];
      var t := Two(n);
      assert t == ['0', DigitChar(n)];
      assert t[..1] == ['0'];
      assert DigitsValue(['0']) == 0 by {
        assert ['0'][..0] == [];
      }
    } else {
      assert n / 10 < 10;
      assert NatToString(n / 10) == [DigitChar(n / 10)];
      assert d == [DigitChar(n / 10)] + [DigitChar(n % 10)];
      DigitsValueNatToString(n);
    }
  }

  lemma ParseTwoDigits(t: string)
    requires |t| == 2 && IsDigit(t[0]) && IsDigit(t[1])
    ensures ParseInt(t) == Some(DigitsValue(t) as int)
  {
    assert !IsWhitespace(t[0]);
    assert TrimStart(t) == t;
    DigitPrefixAllDigits(t);
  }

  /** The backend text of a calendar date has the year, then five two-digit
      fields at fixed offsets after it, separated by `-`, `-`, `T`, `:`, `:`,
      and `parseInt` reads every field back, the month as `getMonth() + 1`. */
  lemma FormatDateFields(d: DateFields)
    requires IsCalendarDate(d)
    ensures |FormatDateForBackend(d)| == |IntToString(d.year)| + 15
    ensures DateSeparators(FormatDateForBackend(d), |IntToString(d.year)|)
    ensures DateFieldsRead(FormatDateForBackend(d), |IntToString(d.year)|) == Some(d)
  {
    TwoDigits(d.month0 + 1);
    TwoDigits(d.day);
    TwoDigits(d.hours);
    TwoDigits(d.minutes);
    TwoDigits(d.seconds);
    ParseIntToString(d.year);
    ReadDateText(IntToString(d.year), Two(d.month0 + 1), Two(d.day), Two(d.hours), Two(d.minutes), Two(d.seconds), d);
  }

  /** A backend date text whose six pieces each read back as the matching
      field reads back as that date. */
  lemma ReadDateText(ys: string, mo: string, da: string, h: string, mi: string, se: string, d: DateFields)
    requires |mo| == 2 && |da| == 2 && |h| == 2 && |mi| == 2 && |se| == 2
    requires ParseInt(ys) == Some(d.year) && ParseInt(mo) == Some(d.month0 + 1) && ParseInt(da) == Some(d.day)
    requires ParseInt(h) == Some(d.hours) && ParseInt(mi) == Some(d.minutes) && ParseInt(se) == Some(d.seconds)
    ensures |DateText(ys, mo, da, h, mi, se)| == |ys| + 15
    ensures DateSeparators(DateText(ys, mo, da, h, mi, se), |ys|)
    ensures DateFieldsRead(DateText(ys, mo, da, h, mi, se), |ys|) == Some(d)
  {
    DateTextLayout(ys, mo, da, h, mi, se);
    FieldsOfRead(ParseInt(ys), ParseInt(mo), ParseInt(da), ParseInt(h), ParseInt(mi), ParseInt(se), d);
  }

  /** In the layout `Y-MM-DDTHH:mm:ss` the separators sit in place and each
      number is read from its own piece. */
  lemma DateTextLayout(ys: string, mo: string, da: string, h: string, mi: string, se: string)
    requires |mo| == 2 && |da| == 2 && |h| == 2 && |mi| == 2 && |se| == 2
    ensures |DateText(ys, mo, da, h, mi, se)| == |ys| + 15
    ensures DateSeparators(DateText(ys, mo, da, h, mi, se), |ys|)
    ensures DateFieldsRead(DateText(ys, mo, da, h, mi, se), |ys|)
         == FieldsOf(ParseInt(ys), ParseInt(mo), ParseInt(da), ParseInt(h), ParseInt(mi), ParseInt(se))
  {
    FieldLayout(ys, mo, da, h, mi, se);
  }

  lemma FieldsOfRead(ys: Option<int>, mo: Option<int>, da: Option<int>, h: Option<int>, mi: Option<int>, se: Option<int>, d: DateFields)
    requires ys == Some(d.year) && mo == Some(d.month0 + 1) && da == Some(d.day)
    requires h == Some(d.hours) && mi == Some(d.minutes) && se == Some(d.seconds)
    ensures FieldsOf(ys, mo, da, h, mi, se) == Some(d)
  {
  }

  /** The separators of a backend date text whose year takes `y` characters. */
  predicate DateSeparators(r: string, y: nat)
    requires |r| == y + 15
  {
    r[y] == '-' && r[y + 3] == '-' && r[y + 6] == 'T' && r[y + 9] == ':' && r[y + 12] == ':'
  }

  /** Reads the six numbers of a backend date text back with `parseInt`,
      the month as `getMonth()`. */
  function DateFieldsRead(r: string, y: nat): Option<DateFields>
    requires |r| == y + 15
  {
    ReadParts(DateParts(r, y))
  }

  /** The six pieces of a backend date text whose year takes `y` characters. */
  function DateParts(r: string, y: nat): (ps: seq<string>)
    requires |r| == y + 15
    ensures |ps| == 6
  {
    [r[..y], r[y + 1..y + 3], r[y + 4..y + 6], r[y + 7..y + 9], r[y + 10..y + 12], r[y + 13..y + 15]]
  }

  /** `parseInt` applied to each of the six pieces. */
  function ReadParts(ps: seq<string>): Option<DateFields>
    requires |ps| == 6
  {
    FieldsOf(ParseInt(ps[0]), ParseInt(ps[1]), ParseInt(ps[2]), ParseInt(ps[3]), ParseInt(ps[4]), ParseInt(ps[5]))
  }

  /** The date when all six numbers were read, the month counted from 0. */
  function FieldsOf(ys: Option<int>, mo: Option<int>, da: Option<int>, h: Option<int>, mi: Option<int>, se: Option<int>): Option<DateFields>
  {
    if ys.None? || mo.None? || da.None? || h.None? || mi.None? || se.None? then None
    else Some(DateFields(ys.value, mo.value - 1, da.value, h.value, mi.value, se.value))
  }

  /** Where the pieces of a backend date text sit. */
  lemma FieldLayout(ys: string, mo: string, da: string, h: string, mi: string, se: string)
    requires |mo| == 2 && |da| == 2 && |h| == 2 && |mi| == 2 && |se| == 2
    ensures var y := |ys|;
      var r := DateText(ys, mo, da, h, mi, se);
      && |r| == y + 15
      && r[y] == '-' && r[y + 3] == '-' && r[y + 6] == 'T' && r[y + 9] == ':' && r[y + 12] == ':'
      && DateParts(r, y) == [ys, mo, da, h, mi, se]
  {
    var y, r := |ys|, DateText(ys, mo, da, h, mi, se);
    assert r[..y] == ys && r[y + 1..y + 3] == mo && r[y + 4..y + 6] == da;
    assert r[y + 7..y + 9] == h && r[y + 10..y + 12] == mi && r[y + 13..y + 15] == se;
  }

  /** `createLocalDateTime(dateStr, timeStr)`: the hour padded to two
      characters, the minutes padded or `00`, and zero seconds. */
  function CreateLocalDateTime(dateStr: string, timeStr: string): (r: string)
    ensures StartsWith(r, dateStr + "T") && EndsWith(r, ":00")
  {
    var timeString := if timeStr == "" then "00:00" else timeStr;
    var parts := Split(timeString, ':');
    var hours := PadStart(parts[0], 2, '0');
    var minutes := if |parts| > 1 && parts[1] != "" then PadStart(parts[1], 2, '0') else "00";
    Framed(dateStr + "T", hours + ":" + minutes, ":00");
    dateStr + "T" + hours + ":" + minutes + ":00"
  }

  lemma Framed(p: string, m: string, q: string)
    ensures StartsWith(p + m + q, p) && EndsWith(p + m + q, q)
  {
    assert (p + m + q)[|p + m + q| - |q|..] == q;
  }

  /** With no time given the time of day is midnight. */
  lemma CreateLocalDateTimeMidnight(dateStr: string)
    ensures CreateLocalDateTime(dateStr, "") == dateStr + "T00:00:00"
  {
    EmptyTimeIsMidnight(dateStr);
    MidnightText(dateStr);
  }

  lemma EmptyTimeIsMidnight(dateStr: string)
    ensures CreateLocalDateTime(dateStr, "") == CreateLocalDateTime(dateStr, "00:00")
  {
  }

  lemma MidnightText(dateStr: string)
    ensures CreateLocalDateTime(dateStr, "00:00") == dateStr + "T00:00:00"
  {
    MidnightPieces();
    CreateLocalDateTimeOfClock(dateStr, "00", "00");
    PrependAll(dateStr, "T", "00", ":", "00", ":00");
  }

  lemma MidnightPieces()
    ensures "00" + ":" + "00" == "00:00"
    ensures "T" + "00" + ":" + "00" + ":00" == "T00:00:00"
    ensures PadStart("00", 2, '0') == "00"
  {
  }

  lemma PrependAll(d: string, a: string, b: string, c: string, e: string, f: string)
    ensures d + a + b + c + e + f == d + (a + b + c + e + f)
  {
  }

  /** A time written `H:MM` or `HH:MM` keeps its digits, the hour padded to
      two, and gets zero seconds. */
  lemma CreateLocalDateTimeOfClock(dateStr: string, h: string, m: string)
    requires 1 <= |h| <= 2 && |m| == 2 && ':' !in h && ':' !in m
    ensures CreateLocalDateTime(dateStr, h + ":" + m) == dateStr + "T" + PadStart(h, 2, '0') + ":" + m + ":00"
  {
    SplitPieceSep(h, ':', m);
    SplitNoSep(m, ':');
    assert h + ":" + m == h + [':'] + m;
    assert Split(h + ":" + m, ':') == [h, m];
    assert PadStart(m, 2, '0') == m;
  }

  /** The first two `:`-separated parts of `h:m`, optionally followed by
      more `:`-separated parts, are `h` and `m`. */
  lemma ClockParts(h: string, m: string, rest: string)
    requires ':' !in h && ':' !in m && (rest == "" || rest[0] == ':')
    ensures var parts := Split(h + ":" + m + rest, ':');
      |parts| >= 2 && parts[0] == h && parts[1] == m
  {
    assert h + ":" + m + rest == h + [':'] + (m + rest);
    SplitPieceSep(h, ':', m + rest);
    if rest == "" {
      assert m + rest == m;
      SplitNoSep(m, ':');
    } else {
      assert m + rest == m + [':'] + rest[1..];
      SplitPieceSep(m, ':', rest[1..]);
    }
  }

  /** A time with no `:` is an hour alone: padded to two, with zero minutes
      and seconds (`"8"` becomes `T08:00:00`). */
  lemma CreateLocalDateTimeHourOnly(dateStr: string, h: string)
    requires h != "" && ':' !in h
    ensures CreateLocalDateTime(dateStr, h) == dateStr + "T" + PadStart(h, 2, '0') + ":00:00"
  {
    SplitNoSep(h, ':');
    PrependAll(dateStr, "T", PadStart(h, 2, '0'), ":", "00", ":00");
    assert ":" + "00" + ":00" == ":00:00";
  }

  /** A time with a `:` keeps its hour and minutes, each padded to two, an
      empty minute part becomes `00`, and whatever follows the minutes is
      dropped for zero seconds (`"10:30:45"` becomes `T10:30:00`). */
  lemma CreateLocalDateTimeOfParts(dateStr: string, h: string, m: string, rest: string)
    requires ':' !in h && ':' !in m && (rest == "" || rest[0] == ':')
    ensures CreateLocalDateTime(dateStr, h + ":" + m + rest) ==
      dateStr + "T" + PadStart(h, 2, '0') + ":" + (if m == "" then "00" else PadStart(m, 2, '0')) + ":00"
  {
    ClockParts(h, m, rest);
  }

  /** `formatDisplayTime(timeStr)`: `N/A` for no time, else the first two
      `:`-separated parts. */
  function FormatDisplayTime(timeStr: string): (r: string)
    ensures timeStr == "" ==> r == "N/A"
    ensures |Split(timeStr, ':')| < 2 ==> timeStr == "" || r == timeStr
  {
    if timeStr == "" then "N/A"
    else
      var parts := Split(timeStr, ':');
      if |parts| >= 2 then parts[0] + ":" + parts[1] else timeStr
  }

  /** A displayed time is the start of the given time, and shows at most
      one `:`. */
  lemma FormatDisplayTimePrefix(timeStr: string)
    requires timeStr != ""
    ensures StartsWith(timeStr, FormatDisplayTime(timeStr))
    ensures |Split(timeStr, ':')| >= 2 ==> Count(FormatDisplayTime(timeStr), ':') == 1
  {
    var parts := Split(timeStr, ':');
    if |parts| >= 2 {
      SplitJoin(timeStr, ':');
      var shown := parts[0] + ":" + parts[1];
      var rest := if |parts| == 2 then "" else [':'] + Join(parts[2..], ':');
      assert Join(parts, ':') == parts[0] + [':'] + Join(parts[1..], ':');
      assert Join(parts[1..], ':') == parts[1] + rest;
      assert timeStr == shown + rest;
      NoSepCount(parts[0], ':');
      NoSepCount(parts[1], ':');
      CountAppend(parts[0], ":", ':');
      CountAppend(parts[0] + ":", parts[1], ':');
    }
  }

  /** A time of two or more parts is shown as its first two: `a:b:c`
      becomes `a:b`. */
  lemma FormatDisplayTimeOfParts(a: string, b: string, rest: string)
    requires ':' !in a && ':' !in b && (rest == "" || rest[0] == ':')
    ensures FormatDisplayTime(a + ":" + b + rest) == a + ":" + b
  {
    ClockParts(a, b, rest);
  }

  /** Formatting a displayed time again changes nothing. */
  lemma FormatDisplayTimeIdempotent(timeStr: string)
    ensures FormatDisplayTime(FormatDisplayTime(timeStr)) == FormatDisplayTime(timeStr)
  {
    var r := FormatDisplayTime(timeStr);
    if timeStr == "" {
      SplitNoSep("N/A", ':');
    } else {
      var parts := Split(timeStr, ':');
      if |parts| >= 2 {
        SplitJoin(timeStr, ':');
        SplitPieceSep(parts[0], ':', parts[1]);
        SplitNoSep(parts[1], ':');
        assert parts[0] + ":" + parts[1] == parts[0] + [':'] + parts[1];
      }
    }
  }

  lemma {:induction false} NoSepCount(s: string, c: char)
    requires c !in s
    ensures Count(s, c) == 0
    decreases |s|
  {
    if |s| > 0 {
      NoSepCount(s[1..], c);
    }
  }

  lemma {:induction false} CountAppend(a: string, b: string, c: char)
    ensures Count(a + b, c) == Count(a, c) + Count(b, c)
    decreases |a|
  {
    if |a| > 0 {
      assert (a + b)[1..] == a[1..] + b;
      CountAppend(a[1..], b, c);
    } else {
      assert a + b == b;
    }
  }

  // ---------------------------------------------------------------------------
  // credentials

  /** `hasCredentials()` */
  predicate HasCredentials(items: map<string, StoredItem>) {
    HasBothFields(items)
  }

  /** `getCredentials()`: both stored fields Base64-decoded, a "not found"
      error unless both are truthy, and `atob`'s own error when either does
      not decode. */
  function GetCredentials(items: map<string, StoredItem>): (r: Result<Credentials, Thrown>)
    ensures !HasCredentials(items) ==> r == Err(PlainError(CredentialsNotFound))
    ensures r.Err? && HasCredentials(items) ==> r.error == InvalidBase64
    ensures r.Ok? ==> HasCredentials(items) && IsLatin1(r.value.username) && IsLatin1(r.value.password)
    ensures var stored := StoredCredentials(items);
      var u := Property(stored, "username");
      var p := Property(stored, "password");
      (r.Ok? <==> HasBothFields(items) && Atob(ToStr(u.value)).Ok? && Atob(ToStr(p.value)).Ok?)
      && (r.Ok? ==> r.value == Credentials(Atob(ToStr(u.value)).value, Atob(ToStr(p.value)).value))
  {
    var stored := StoredCredentials(items);
    var u := Property(stored, "username");
    var p := Property(stored, "password");
    if TruthyOpt(u) && TruthyOpt(p) then
      match Atob(ToStr(u.value))
      case Err(e) => Err(e)
      case Ok(du) =>
        match Atob(ToStr(p.value))
        case Err(e) => Err(e)
        case Ok(dp) => Ok(Credentials(du, dp))
    else Err(PlainError(CredentialsNotFound))
  }

  /** The credentials exactly as `storeCredentials` wrote them read back as
      the plain user name and password. */
  lemma GetStoredCredentials(items: map<string, StoredItem>, username: string, password: string)
    requires IsLatin1(username) && IsLatin1(password) && username != "" && password != ""
    ensures var after := items[CredentialsKey := Parsed(CredentialsRecord(Btoa(username).value, Btoa(password).value))];
      HasCredentials(after) && GetCredentials(after) == Ok(Credentials(username, password))
  {
    var u := Btoa(username).value;
    var p := Btoa(password).value;
    StoredRecord(items, u, p);
    AtobBtoa(username);
    AtobBtoa(password);
    assert ToStr(JStr(u)) == u && ToStr(JStr(p)) == p;
  }

  /** The `username`/`password` pair every credentialed query starts with. */
  function CredentialPairs(c: Credentials): seq<FormUrl.Pair>
    requires IsLatin1(c.username) && IsLatin1(c.password)
  {
    [("username", Btoa(c.username).value), ("password", Btoa(c.password).value)]
  }

  // ---------------------------------------------------------------------------
  // list queries

  /** A `get` call: the endpoint and its parameters. */
  datatype GetCall = GetCall(endpoint: string, params: Option<seq<(string, Option<Json>)>>)

  /** What a list query did: the call it made, if any, and what it returned
      or threw. */
  datatype Fetch = Fetch(call: Option<GetCall>, result: Result<seq<Json>, Thrown>)

  function AsParams(pairs: seq<FormUrl.Pair>): (ps: seq<(string, Option<Json>)>)
    ensures |ps| == |pairs| && forall k :: 0 <= k < |ps| ==> ps[k] == (pairs[k].0, Some(JStr(pairs[k].1)))
  {
    if |pairs| == 0 then [] else [(pairs[0].0, Some(JStr(pairs[0].1)))] + AsParams(pairs[1..])
  }

  /** `Array.isArray(response) ? response : []` */
  function ListOf(response: Json): (r: seq<Json>)
    ensures !response.JArr? ==> r == []
    ensures response.JArr? ==> r == response.items
  {
    if response.JArr? then response.items else []
  }

  /** The error a list query throws: its what and the cause's message. */
  function FetchError(what: string, e: Thrown): (t: Thrown)
    ensures t.IsError() && StartsWith(t.message, "Failed to fetch " + what + ": ")
    ensures e.IsError() ==> t.message == "Failed to fetch " + what + ": " + e.message
    ensures !e.IsError() ==> t.message == "Failed to fetch " + what + ": Unknown error"
  {
    var m := "Failed to fetch " + what + ": " + MessageOr(e, "Unknown error");
    assert m == ("Failed to fetch " + what + ": ") + MessageOr(e, "Unknown error");
    PlainError(m)
  }

  /** A list query with no credentials. */
  function PlainFetch(what: string, path: string, params: Option<seq<FormUrl.Pair>>, response: Result<Json, Thrown>): (f: Fetch)
    ensures f.call == Some(GetCall(Endpoint + path, if params.Some? then Some(AsParams(params.value)) else None))
    ensures response.Ok? ==> f.result == Ok(ListOf(response.value))
    ensures response.Err? ==> f.result == Err(FetchError(what, response.error))
  {
    var call := GetCall(Endpoint + path, if params.Some? then Some(AsParams(params.value)) else None);
    match response
    case Ok(v) => Fetch(Some(call), Ok(ListOf(v)))
    case Err(e) => Fetch(Some(call), Err(FetchError(what, e)))
  }

  /** A list query whose parameters start with the Base64-encoded
      credentials: without usable credentials no call is made and the
      credentials error is thrown with the query's what. */
  function CredentialedFetch(items: map<string, StoredItem>, what: string, path: string,
                             fields: seq<FormUrl.Pair>, response: Result<Json, Thrown>): (f: Fetch)
    ensures f.call.Some? <==> GetCredentials(items).Ok?
    ensures GetCredentials(items).Err? ==> f.result == Err(FetchError(what, GetCredentials(items).error))
    ensures f.call.Some? ==>
      f.call.value == GetCall(Endpoint + path, Some(AsParams(CredentialPairs(GetCredentials(items).value) + fields)))
    ensures f.call.Some? && response.Ok? ==> f.result == Ok(ListOf(response.value))
    ensures f.call.Some? && response.Err? ==> f.result == Err(FetchError(what, response.error))
  {
    match GetCredentials(items)
    case Err(e) => Fetch(None, Err(FetchError(what, e)))
    case Ok(c) =>
      var call := GetCall(Endpoint + path, Some(AsParams(CredentialPairs(c) + fields)));
      match response
      case Ok(v) => Fetch(Some(call), Ok(ListOf(v)))
      case Err(e) => Fetch(Some(call), Err(FetchError(what, e)))
  }

  /** `getPlannedOrders(begin, end)` */
  function GetPlannedOrders(items: map<string, StoredItem>, begin: DateFields, end: DateFields,
                            response: Result<Json, Thrown>): (f: Fetch)
    ensures f.call.Some? ==> f.call.value.endpoint == Endpoint + "/getPlannedOrders"
    ensures f.result.Ok? && response.Ok? && !response.value.JArr? ==> f.result.value == []
  {
    CredentialedFetch(items, "planned orders", "/getPlannedOrders",
      [("reqDelDateBegin", FormatDateForBackend(begin)), ("reqDelDateEnd", FormatDateForBackend(end))], response)
  }

  /** `getPlannedOrdersByProductionSupervisor(supervisor, begin, end)` */
  function GetPlannedOrdersBySupervisor(items: map<string, StoredItem>, supervisor: string, begin: DateFields,
                                        end: DateFields, response: Result<Json, Thrown>): (f: Fetch)
    ensures f.call.Some? ==> f.call.value.endpoint == Endpoint + "/getPlannedOrdersByProductionSupervisor"
    ensures f.result.Ok? && response.Ok? && !response.value.JArr? ==> f.result.value == []
  {
    CredentialedFetch(items, "planned orders for supervisor " + supervisor, "/getPlannedOrdersByProductionSupervisor",
      [("productionSupervisor", supervisor), ("reqDelDateBegin", FormatDateForBackend(begin)),
       ("reqDelDateEnd", FormatDateForBackend(end))], response)
  }

  /** `getProductionVersionsByMaterial(material, plant)`: no credentials. */
  function GetProductionVersionsByMaterial(material: string, plant: string, response: Result<Json, Thrown>): (f: Fetch)
    ensures f.call == Some(GetCall(Endpoint + "/getProductionVersionByMaterial",
      Some([("material", Some(JStr(material))), ("plant", Some(JStr(plant)))])))
    ensures f.result.Ok? && response.Ok? && !response.value.JArr? ==> f.result.value == []
  {
    var pairs := [("material", material), ("plant", plant)];
    assert AsParams(pairs) == [("material", Some(JStr(material))), ("plant", Some(JStr(plant)))];
    PlainFetch("production versions for material " + material, "/getProductionVersionByMaterial", Some(pairs), response)
  }

  /** `getProductionOrdersByProductionSupervisor(supervisor, begin, end)` */
  function GetProductionOrdersBySupervisor(items: map<string, StoredItem>, supervisor: string, begin: DateFields,
                                           end: DateFields, response: Result<Json, Thrown>): (f: Fetch)
    ensures f.call.Some? ==> f.call.value.endpoint == Endpoint + "/getProductionOrdersByProductionSupervisor"
    ensures f.result.Ok? && response.Ok? && !response.value.JArr? ==> f.result.value == []
  {
    CredentialedFetch(items, "production orders for supervisor " + supervisor, "/getProductionOrdersByProductionSupervisor",
      [("productionSupervisor", supervisor), ("reqDelDateBegin", FormatDateForBackend(begin)),
       ("reqDelDateEnd", FormatDateForBackend(end))], response)
  }

  /** `getProductionOrdersByMaterial(material, begin, end)` */
  function GetProductionOrdersByMaterial(items: map<string, StoredItem>, material: string, begin: DateFields,
                                         end: DateFields, response: Result<Json, Thrown>): (f: Fetch)
    ensures f.call.Some? ==> f.call.value.endpoint == Endpoint + "/getProductionOrdersByMaterial"
    ensures f.result.Ok? && response.Ok? && !response.value.JArr? ==> f.result.value == []
  {
    CredentialedFetch(items, "production orders for material " + material, "/getProductionOrdersByMaterial",
      [("material", material), ("reqDelDateBegin", FormatDateForBackend(begin)),
       ("reqDelDateEnd", FormatDateForBackend(end))], response)
  }

  /** `getProductionSupervisors()`: no credentials, no parameters. */
  function GetProductionSupervisors(response: Result<Json, Thrown>): (f: Fetch)
    ensures f.call == Some(GetCall(Endpoint + "/getProductionSupervisor", None))
    ensures f.result.Ok? && response.Ok? && !response.value.JArr? ==> f.result.value == []
  {
    PlainFetch("production supervisors", "/getProductionSupervisor", None, response)
  }

  /** `getWorkCentersByProductionSupervisor(supervisor)`: no credentials. */
  function GetWorkCentersBySupervisor(supervisor: string, response: Result<Json, Thrown>): (f: Fetch)
    ensures f.call == Some(GetCall(Endpoint + "/getWorkCentersByProductionSupervisor",
      Some([("productionSupervisor", Some(JStr(supervisor)))])))
    ensures f.result.Ok? && response.Ok? && !response.value.JArr? ==> f.result.value == []
  {
    var pairs := [("productionSupervisor", supervisor)];
    assert AsParams(pairs) == [("productionSupervisor", Some(JStr(supervisor)))];
    PlainFetch("work centers for supervisor " + supervisor, "/getWorkCentersByProductionSupervisor", Some(pairs), response)
  }

  // ---------------------------------------------------------------------------
  // mutating calls

  /** The result object of a mutating call. */
  datatype OrderResponse = OrderResponse(success: bool, message: string, productionOrder: Option<string>)

  /** The credentials are stored, decode, and are both non-empty: the only
      case in which a mutating call posts anything. */
  predicate CredentialsUsable(items: map<string, StoredItem>) {
    var c := GetCredentials(items);
    c.Ok? && c.value.username != "" && c.value.password != ""
  }

  /** `${endpoint}${path}?${new URLSearchParams(pairs)}` */
  function QueryUrl(path: string, pairs: seq<FormUrl.Pair>): string {
    Endpoint + path + "?" + FormUrl.Serialize(pairs)
  }

  /** The query of every posted URL reads back as exactly its pairs. */
  lemma QueryUrlParses(path: string, pairs: seq<FormUrl.Pair>)
    ensures var u := QueryUrl(path, pairs);
      var n := |Endpoint + path| + 1;
      n <= |u| && u[..n] == Endpoint + path + "?" && FormUrl.Parse(u[n..]) == Some(pairs)
  {
    var u := QueryUrl(path, pairs);
    var n := |Endpoint + path| + 1;
    assert u == (Endpoint + path + "?") + FormUrl.Serialize(pairs);
    assert u[n..] == FormUrl.Serialize(pairs);
    FormUrl.ParseSerialize(pairs);
  }

  /** The URL a mutating call posts to: `None` when it throws before posting. */
  function SentUrl(items: map<string, StoredItem>, path: string, fields: seq<FormUrl.Pair>): (u: Option<string>)
    ensures u.Some? <==> CredentialsUsable(items)
  {
    if CredentialsUsable(items) then Some(QueryUrl(path, CredentialPairs(GetCredentials(items).value) + fields))
    else None
  }

  /** What the `catch` block of a mutating call receives: the credentials
      error, the empty-credentials error, or the rejection of the post. */
  function FailureCause(items: map<string, StoredItem>, emptyMessage: string, post: Result<Json, Thrown>): Thrown
    requires !(CredentialsUsable(items) && post.Ok?)
  {
    var c := GetCredentials(items);
    if c.Err? then c.error
    else if c.value.username == "" || c.value.password == "" then PlainError(emptyMessage)
    else post.error
  }

  /** The message extraction of the `catch` blocks that also inspect API error
      objects: an `Error`'s message, else `response.data.message`, else the
      JSON of `response.data`, else the object's own `message`, else the
      default. */
  function ApiErrorMessage(e: Thrown, default: string): (m: string)
    ensures e.IsError() ==> m == e.message
    ensures e.NonErrorValue? && !(e.value.JObj? || e.value.JArr?) ==> m == default
  {
    match e
    case ErrorValue(_, message) => message
    case NonErrorValue(v) =>
      if v.JObj? || v.JArr? then
        var data := PropertyOpt(Property(v, "response"), "data");
        var dataMessage := PropertyOpt(data, "message");
        if TruthyOpt(dataMessage) then ToStr(dataMessage.value)
        else if TruthyOpt(data) then Stringify(data.value)
        else if TruthyOpt(Property(v, "message")) then ToStr(Property(v, "message").value)
        else default
      else default
  }

  /** Everything the client rejects with is an `Error`, so the message of a
      failed post is always the client's own message. */
  lemma ClientFailureMessage(cfg: ApiClient.Config, outcomes: seq<ApiClient.Outcome>, default: string)
    requires ApiClient.MaxAttempts(cfg) <= |outcomes|
    requires ApiClient.Run(cfg, outcomes, 1).result.Err?
    ensures var e := ApiClient.Run(cfg, outcomes, 1).result.error;
      e.IsError() && ApiErrorMessage(e, default) == e.message && MessageOr(e, default) == e.message
  {
    ApiClient.RunThrowsError(cfg, outcomes);
  }

  /** The order number the backend answers with: the text itself, or
      `toString()` of another value, with `null` as "". */
  function OrderNumber(v: Json): (n: string)
    ensures v.JStr? ==> n == v.s
    ensures v.JNull? ==> n == ""
    ensures !v.JStr? && !v.JNull? ==> n == ToStr(v)
    ensures v.JNum? ==> n == IntToString(v.n)
  {
    ToStrOrEmpty(Some(v))
  }

  const ConvertedPrefix: string := "Планираната поръчка "
  const ConvertedInfix: string := " беше успешно конвертирана към производствена поръчка "
  const ConvertFailedPrefix: string := "Неуспешно конвертиране на планирана поръчка "
  const ConvertFailedDefault: string := "Възникна неочаквана грешка при конвертирането"

  /** `convertPlannedOrder(plannedOrder, manufacturingOrderType)` */
  method ConvertPlannedOrder(items: map<string, StoredItem>, plannedOrder: string, manufacturingOrderType: string,
                             post: Result<Json, Thrown>)
    returns (url: Option<string>, response: OrderResponse)
    ensures url == SentUrl(items, "/convertPlannedOrder",
      [("plannedOrder", plannedOrder), ("manufacturingOrderType", manufacturingOrderType)])
    ensures response.success <==> url.Some? && post.Ok?
    ensures response.success ==> response == OrderResponse(true,
      ConvertedPrefix + plannedOrder + ConvertedInfix + OrderNumber(post.value), Some(OrderNumber(post.value)))
    ensures !response.success ==> response == OrderResponse(false,
      ConvertFailedPrefix + plannedOrder + ": "
      + ApiErrorMessage(FailureCause(items, EmptyCredentialsMessage, post), ConvertFailedDefault),
      None)
  {
    url := SentUrl(items, "/convertPlannedOrder",
      [("plannedOrder", plannedOrder), ("manufacturingOrderType", manufacturingOrderType)]);
    if url.Some? && post.Ok? {
      var productionOrderNumber := OrderNumber(post.value);
      response := OrderResponse(true,
        ConvertedPrefix + plannedOrder + ConvertedInfix + productionOrderNumber, Some(productionOrderNumber));
      return;
    }
    var errorMessage := ConvertFailedDefault;
    errorMessage := ApiErrorMessage(FailureCause(items, EmptyCredentialsMessage, post), errorMessage);
    response := OrderResponse(false, ConvertFailedPrefix + plannedOrder + ": " + errorMessage, None);
  }

  /** The query fields of `createProductionOrder`: `productionVersion` is
      added, last, only when it is given and not empty. */
  function CreateFields(material: string, productionPlant: string, manufacturingOrderType: string,
                        totalQuantity: string, productionVersion: Option<string>): (fields: seq<FormUrl.Pair>)
    ensures |fields| == 4 || |fields| == 5
    ensures fields[..4] == [("material", material), ("productionPlant", productionPlant),
      ("manufacturingOrderType", manufacturingOrderType), ("totalQuantity", totalQuantity)]
    ensures HasField(fields, "productionVersion") <==> productionVersion.Some? && productionVersion.value != ""
    ensures |fields| == 5 ==> productionVersion.Some? && fields[4] == ("productionVersion", productionVersion.value)
  {
    var fixed := [("material", material), ("productionPlant", productionPlant),
      ("manufacturingOrderType", manufacturingOrderType), ("totalQuantity", totalQuantity)];
    assert "productionVersion" != "material" by { assert "productionVersion"[0] != "material"[0]; }
    assert "productionVersion" != "productionPlant" by { assert "productionVersion"[10] != "productionPlant"[10]; }
    assert "productionVersion" != "manufacturingOrderType" by {
      assert "productionVersion"[0] != "manufacturingOrderType"[0];
    }
    assert "productionVersion" != "totalQuantity" by { assert "productionVersion"[0] != "totalQuantity"[0]; }
    assert !HasField(fixed, "productionVersion");
    if productionVersion.Some? && productionVersion.value != "" then
      var fields := fixed + [("productionVersion", productionVersion.value)];
      assert fields[4].0 == "productionVersion";
      assert fields[..4] == fixed;
      fields
    else
      assert fixed[..4] == fixed;
      fixed
  }

  /** A query has a field of that name. */
  predicate HasField(fields: seq<FormUrl.Pair>, name: string) {
    exists k :: 0 <= k < |fields| && fields[k].0 == name
  }

  const ProductionOrderPrefix: string := "Производствената поръчка "
  const CreatedInfix: string := " беше успешно създадена за материал "
  const CreateFailedPrefix: string := "Неуспешно създаване на производствена поръчка за материал "
  const CreateFailedDefault: string := "Възникна неочаквана грешка при създаването"

  /** `createProductionOrder(material, plant, type, quantity, version?)` */
  method CreateProductionOrder(items: map<string, StoredItem>, material: string, productionPlant: string,
                               manufacturingOrderType: string, totalQuantity: string,
                               productionVersion: Option<string>, post: Result<Json, Thrown>)
    returns (url: Option<string>, response: OrderResponse)
    ensures url == SentUrl(items, "/createProductionOrder",
      CreateFields(material, productionPlant, manufacturingOrderType, totalQuantity, productionVersion))
    ensures response.success <==> url.Some? && post.Ok?
    ensures response.success ==> response == OrderResponse(true,
      ProductionOrderPrefix + OrderNumber(post.value) + CreatedInfix + material,
      Some(OrderNumber(post.value)))
    ensures !response.success ==> response == OrderResponse(false,
      CreateFailedPrefix + material + ": "
      + ApiErrorMessage(FailureCause(items, EmptyCredentialsMessage, post), CreateFailedDefault),
      None)
  {
    var fields := CreateFields(material, productionPlant, manufacturingOrderType, totalQuantity, productionVersion);
    url := SentUrl(items, "/createProductionOrder", fields);
    if url.Some? && post.Ok? {
      var productionOrderNumber := OrderNumber(post.value);
      response := OrderResponse(true,
        ProductionOrderPrefix + productionOrderNumber + CreatedInfix + material,
        Some(productionOrderNumber));
      return;
    }
    var errorMessage := CreateFailedDefault;
    errorMessage := ApiErrorMessage(FailureCause(items, EmptyCredentialsMessage, post), errorMessage);
    response := OrderResponse(false,
      CreateFailedPrefix + material + ": " + errorMessage, None);
  }

  /** `schedule.toString()` */
  function BoolText(b: bool): string {
    if b then "true" else "false"
  }

  const UpdatedInfix: string := " беше успешно "
  const UpdateFailedPrefix: string := "Неуспешна актуализация на производствена поръчка "
  const UpdateFailedDefault: string := "Възникна неочаквана грешка при актуализацията"

  /** `updateProductionOrder(productionOrder, scheduledStartDateTime, schedule)`;
      `schedule` defaults to `true` in the source. */
  method UpdateProductionOrder(items: map<string, StoredItem>, productionOrder: string,
                               scheduledStartDateTime: string, schedule: bool, post: Result<Json, Thrown>)
    returns (url: Option<string>, response: OrderResponse)
    ensures url == SentUrl(items, "/updateProductionOrder",
      [("productionOrder", productionOrder), ("scheduledStartDateTime", scheduledStartDateTime),
       ("schedule", BoolText(schedule))])
    ensures response.success <==> url.Some? && post.Ok?
    ensures response.success ==> response == OrderResponse(true,
      ProductionOrderPrefix + productionOrder + UpdatedInfix
      + (if schedule then "планирана" else "премахната от плана"), None)
    ensures !response.success ==> response == OrderResponse(false,
      UpdateFailedPrefix + productionOrder + ": "
      + MessageOr(FailureCause(items, EmptyCredentialsMessage, post), UpdateFailedDefault),
      None)
  {
    url := SentUrl(items, "/updateProductionOrder",
      [("productionOrder", productionOrder), ("scheduledStartDateTime", scheduledStartDateTime),
       ("schedule", BoolText(schedule))]);
    if url.Some? && post.Ok? {
      response := OrderResponse(true, ProductionOrderPrefix + productionOrder + UpdatedInfix
        + (if schedule then "планирана" else "премахната от плана"), None);
      return;
    }
    var errorMessage := UpdateFailedDefault;
    errorMessage := MessageOr(FailureCause(items, EmptyCredentialsMessage, post), errorMessage);
    response := OrderResponse(false,
      UpdateFailedPrefix + productionOrder + ": " + errorMessage, None);
  }

  /** The shape shared by the four calls that change one attribute of an
      order: `path` and the two query fields, the success text, and the
      failure prefix and default message. */
  method UpdateAttribute(items: map<string, StoredItem>, path: string, fields: seq<FormUrl.Pair>,
                         success: string, failurePrefix: string, default: string, post: Result<Json, Thrown>)
    returns (url: Option<string>, response: OrderResponse)
    ensures url == SentUrl(items, path, fields)
    ensures response.success <==> url.Some? && post.Ok?
    ensures response.success ==> response == OrderResponse(true, success, None)
    ensures !response.success ==> response == OrderResponse(false,
      failurePrefix + ApiErrorMessage(FailureCause(items, EmptyCredentialsMessage, post), default), None)
  {
    url := SentUrl(items, path, fields);
    if url.Some? && post.Ok? {
      response := OrderResponse(true, success, None);
      return;
    }
    var errorMessage := default;
    errorMessage := ApiErrorMessage(FailureCause(items, EmptyCredentialsMessage, post), errorMessage);
    response := OrderResponse(false, failurePrefix + errorMessage, None);
  }

  /** `updateProductionVersion(productionOrder, productionVersion)` */
  method UpdateProductionVersion(items: map<string, StoredItem>, productionOrder: string, productionVersion: string,
                                 post: Result<Json, Thrown>)
    returns (url: Option<string>, response: OrderResponse)
    ensures url == SentUrl(items, "/updateProductionVersion",
      [("productionOrder", productionOrder), ("productionVersion", productionVersion)])
    ensures response.success <==> url.Some? && post.Ok?
    ensures response.success ==> (response.message ==
      "Производствената версия за поръчка " + productionOrder + " беше успешно актуализирана на " + productionVersion)
    ensures !response.success ==> (response.message ==
      "Неуспешна актуализация на версията за поръчка " + productionOrder + ": "
      + ApiErrorMessage(FailureCause(items, EmptyCredentialsMessage, post), "Възникна неочаквана грешка при актуализацията на версията"))
  {
    url, response := UpdateAttribute(items, "/updateProductionVersion",
      [("productionOrder", productionOrder), ("productionVersion", productionVersion)],
      "Производствената версия за поръчка " + productionOrder + " беше успешно актуализирана на " + productionVersion,
      "Неуспешна актуализация на версията за поръчка " + productionOrder + ": ",
      "Възникна неочаквана грешка при актуализацията на версията", post);
  }

  /** `updateProductionOrderQuantity(productionOrder, quantity)`; the backend
      parameter is named `productionOrderOrder`. */
  method UpdateProductionOrderQuantity(items: map<string, StoredItem>, productionOrder: string, quantity: string,
                                       post: Result<Json, Thrown>)
    returns (url: Option<string>, response: OrderResponse)
    ensures url == SentUrl(items, "/updateProductionOrderQuantity",
      [("productionOrderOrder", productionOrder), ("quantity", quantity)])
    ensures response.success <==> url.Some? && post.Ok?
    ensures response.success ==> (response.message ==
      "Количеството за поръчка " + productionOrder + " беше успешно актуализирано на " + quantity)
    ensures !response.success ==> (response.message ==
      "Неуспешна актуализация на количеството за поръчка " + productionOrder + ": "
      + ApiErrorMessage(FailureCause(items, EmptyCredentialsMessage, post), "Възникна неочаквана грешка при актуализацията на количеството"))
  {
    url, response := UpdateAttribute(items, "/updateProductionOrderQuantity",
      [("productionOrderOrder", productionOrder), ("quantity", quantity)],
      "Количеството за поръчка " + productionOrder + " беше успешно актуализирано на " + quantity,
      "Неуспешна актуализация на количеството за поръчка " + productionOrder + ": ",
      "Възникна неочаквана грешка при актуализацията на количеството", post);
  }

  /** `updateStorageLocation(manufacturingOrder, newStorageLocation)` */
  method UpdateStorageLocation(items: map<string, StoredItem>, manufacturingOrder: string, newStorageLocation: string,
                               post: Result<Json, Thrown>)
    returns (url: Option<string>, response: OrderResponse)
    ensures url == SentUrl(items, "/updateStorageLocation",
      [("manufacturingOrder", manufacturingOrder), ("newStorageLocation", newStorageLocation)])
    ensures response.success <==> url.Some? && post.Ok?
    ensures response.success ==> (response.message ==
      "Складът за поръчка " + manufacturingOrder + " беше успешно актуализиран на " + newStorageLocation)
    ensures !response.success ==> (response.message ==
      "Неуспешна актуализация на склада за поръчка " + manufacturingOrder + ": "
      + ApiErrorMessage(FailureCause(items, EmptyCredentialsMessage, post), "Възникна неочаквана грешка при актуализацията на склада"))
  {
    url, response := UpdateAttribute(items, "/updateStorageLocation",
      [("manufacturingOrder", manufacturingOrder), ("newStorageLocation", newStorageLocation)],
      "Складът за поръчка " + manufacturingOrder + " беше успешно актуализиран на " + newStorageLocation,
      "Неуспешна актуализация на склада за поръчка " + manufacturingOrder + ": ",
      "Възникна неочаквана грешка при актуализацията на склада", post);
  }

  /** `updateProductionVersionForManufacturingOrder(manufacturingOrder, productionVersion)` */
  method UpdateProductionVersionForManufacturingOrder(items: map<string, StoredItem>, manufacturingOrder: string,
                                                      productionVersion: string, post: Result<Json, Thrown>)
    returns (url: Option<string>, response: OrderResponse)
    ensures url == SentUrl(items, "/updateProductionVersion",
      [("manufacturingOrder", manufacturingOrder), ("productionVersion", productionVersion)])
    ensures response.success <==> url.Some? && post.Ok?
    ensures response.success ==> (response.message ==
      "Производствената версия за поръчка " + manufacturingOrder + " беше успешно актуализирана на " + productionVersion)
    ensures !response.success ==> (response.message ==
      "Неуспешна актуализация на версията за поръчка " + manufacturingOrder + ": "
      + ApiErrorMessage(FailureCause(items, EmptyCredentialsMessage, post), "Възникна неочаквана грешка при актуализацията на версията"))
  {
    url, response := UpdateAttribute(items, "/updateProductionVersion",
      [("manufacturingOrder", manufacturingOrder), ("productionVersion", productionVersion)],
      "Производствената версия за поръчка " + manufacturingOrder + " беше успешно актуализирана на " + productionVersion,
      "Неуспешна актуализация на версията за поръчка " + manufacturingOrder + ": ",
      "Възникна неочаквана грешка при актуализацията на версията", post);
  }

  const UnscheduledSuffix: string := " беше успешно премахната от плана"
  const UnscheduleFailedPrefix: string := "Неуспешна актуализация на поръчка "

  /** `unscheduleProductionOrder(productionOrder, date, time)`: always sends
      `schedule=false`, with the time defaulting to `00:00`. */
  method UnscheduleProductionOrder(items: map<string, StoredItem>, productionOrder: string,
                                   scheduledStartDate: string, scheduledStartTime: string, post: Result<Json, Thrown>)
    returns (url: Option<string>, response: OrderResponse)
    ensures url == SentUrl(items, "/updateProductionOrder",
      [("productionOrder", productionOrder),
       ("scheduledStartDateTime", CreateLocalDateTime(scheduledStartDate, scheduledStartTime)),
       ("schedule", "false")])
    ensures response.success <==> url.Some? && post.Ok?
    ensures response.success ==> response == OrderResponse(true,
      ProductionOrderPrefix + productionOrder + UnscheduledSuffix, None)
    ensures !response.success ==> response == OrderResponse(false,
      UnscheduleFailedPrefix + productionOrder + ": "
      + MessageOr(FailureCause(items, MissingCredentialsMessage, post), UpdateFailedDefault),
      None)
  {
    var timeStr := if scheduledStartTime == "" then "00:00" else scheduledStartTime;
    var scheduledStartDateTime := CreateLocalDateTime(scheduledStartDate, timeStr);
    assert scheduledStartDateTime == CreateLocalDateTime(scheduledStartDate, scheduledStartTime);
    url := SentUrl(items, "/updateProductionOrder",
      [("productionOrder", productionOrder), ("scheduledStartDateTime", scheduledStartDateTime),
       ("schedule", "false")]);
    if url.Some? && post.Ok? {
      response := OrderResponse(true,
        ProductionOrderPrefix + productionOrder + UnscheduledSuffix, None);
      return;
    }
    var errorMessage := UpdateFailedDefault;
    errorMessage := MessageOr(FailureCause(items, MissingCredentialsMessage, post), errorMessage);
    response := OrderResponse(false, UnscheduleFailedPrefix + productionOrder + ": " + errorMessage, None);
  }

  /** Without usable credentials a mutating call posts nothing and reports
      the credentials problem: "not found" when a field is missing. */
  lemma MissingCredentialsReported(items: map<string, StoredItem>, post: Result<Json, Thrown>, emptyMessage: string)
    requires !HasCredentials(items)
    ensures !CredentialsUsable(items)
    ensures FailureCause(items, emptyMessage, post) == PlainError(CredentialsNotFound)
  {
  }
}
