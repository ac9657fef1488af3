/** The HTTP client every service goes through (`src/services/apiClient.ts`).
    A logical request is a bounded retry loop over attempts: each attempt
    either yields a parsed JSON body or fails, a failure is retried only when
    the retry rule allows it (after an exponential back-off delay), and a
    failure that is not retried is rethrown as an `Error` whose message is
    made more helpful for network errors and timeouts.

    The network is replaced by the sequence of per-attempt outcomes: the
    `k`-th element is what `fetch` and `response.json()` produce on attempt
    `k + 1`.  Delays are recorded, not waited for. */
module ApiClient {
  import opened Common
  import opened Strings
  import opened Js
  import FormUrl
  import Utf8

  // ---------------------------------------------------------------------------
  // configuration (the defaults of src/config/env.ts)

  const DefaultBaseUrl: string := "http://localhost:8080/api"
  const DefaultTimeout: int := 30000
  const DefaultRetryAttempts: int := 3

  /** What the client takes from the environment.  The base URL is split into
      its origin and its path, so that the path `new URL(...)` reports can be
      stated. */
  datatype Env = Env(
    origin: string,
    basePath: string,
    timeout: int,
    retryAttempts: int,
    appName: string,
    appVersion: string,
    mode: string,
    isDevelopment: bool)

  /** The headers the constructor installs: JSON content negotiation, the
      application's identity from the environment, and the debug flag in
      development only. */
  function InitialHeaders(env: Env): (h: map<string, string>)
    ensures "Content-Type" in h && h["Content-Type"] == JsonMediaType
    ensures "Accept" in h && h["Accept"] == JsonMediaType
    ensures "X-App-Name" in h && h["X-App-Name"] == env.appName
    ensures "X-App-Version" in h && h["X-App-Version"] == env.appVersion
    ensures "X-Client-Mode" in h && h["X-Client-Mode"] == env.mode
    ensures "X-Debug-Mode" in h <==> env.isDevelopment
    ensures "X-Debug-Mode" in h ==> h["X-Debug-Mode"] == "true"
    ensures "Authorization" !in h
    ensures forall k :: k in h ==>
      k in {"Content-Type", "Accept", "X-App-Name", "X-App-Version", "X-Client-Mode", "X-Debug-Mode"}
  {
    var h := map[
      "Content-Type" := JsonMediaType,
      "Accept" := JsonMediaType,
      "X-App-Name" := env.appName,
      "X-App-Version" := env.appVersion,
      "X-Client-Mode" := env.mode];
    if env.isDevelopment then h["X-Debug-Mode" := "true"] else h
  }

  const JsonMediaType: string := "application/json"

  /** The part of the client's state the retry loop depends on. */
  datatype Config = Config(baseUrl: string, timeout: int, retryAttempts: int)

  /** The most attempts one logical request can make. */
  function MaxAttempts(cfg: Config): (n: int)
    ensures n >= 1 && n >= cfg.retryAttempts
    ensures cfg.retryAttempts >= 1 ==> n == cfg.retryAttempts
  {
    if cfg.retryAttempts >= 1 then cfg.retryAttempts else 1
  }

  // ---------------------------------------------------------------------------
  // one attempt

  /** The body of a response as `response.json()` sees it. */
  datatype Body = Parsed(value: Json) | Unparsable(syntaxError: string)

  /** What one attempt yields: a response, a rejected `fetch` (a network or
      CORS failure, a `TypeError`), or the abort the timeout timer triggers. */
  datatype Outcome =
    | Response(status: int, statusText: string, body: Body)
    | NetworkFailure(message: string)
    | TimedOut

  /** `response.ok` */
  predicate IsOkStatus(status: int) {
    200 <= status <= 299
  }

  /** What is thrown for a response that is not OK: an `Error` with the
      error body's `message` when it is truthy, else with a generic text; a
      body that cannot be parsed stands for `{ message: "HTTP <status>: <text>" }`,
      and a `null` body makes `errorData.message` itself throw a `TypeError`. */
  function FailureError(status: int, statusText: string, body: Body): (e: Thrown)
    ensures body.Unparsable? ==> e == PlainError("HTTP " + IntToString(status) + ": " + statusText)
    ensures body == Parsed(JNull) ==> e == NullPropertyError("message")
    ensures body.Parsed? && !body.value.JNull? && TruthyOpt(Property(body.value, "message")) ==>
      e == PlainError(ToStr(Property(body.value, "message").value))
    ensures body.Parsed? && !body.value.JNull? && !TruthyOpt(Property(body.value, "message")) ==>
      e == PlainError(FailedPrefix + IntToString(status))
  {
    match body
    case Unparsable(_) => PlainError("HTTP " + IntToString(status) + ": " + statusText)
    case Parsed(v) =>
      match ReadProperty(v, "message")
      case Err(thrown) => thrown
      case Ok(msg) => PlainError(if TruthyOpt(msg) then ToStr(msg.value) else FailedPrefix + IntToString(status))
  }

  const FailedPrefix: string := "Request failed with status "

  /** The message browsers give the `AbortError` of an aborted fetch. */
  const AbortMessage: string := "signal is aborted without reason"

  /** What the `try` block of one attempt returns or throws. */
  function Classify(o: Outcome): (r: Result<Json, Thrown>)
    ensures r.Ok? <==> o.Response? && IsOkStatus(o.status) && o.body.Parsed?
    ensures r.Ok? ==> r.value == o.body.value
    ensures r.Err? ==> r.error.IsError()
    ensures o.NetworkFailure? ==> r == Err(ErrorValue("TypeError", o.message))
    ensures o.TimedOut? ==> r.Err? && r.error.name == "AbortError"
    ensures o.Response? && !IsOkStatus(o.status) ==>
      r == Err(FailureError(o.status, o.statusText, o.body))
    ensures o.Response? && IsOkStatus(o.status) && o.body.Unparsable? ==>
      r == Err(ErrorValue("SyntaxError", o.body.syntaxError))
  {
    match o
    case NetworkFailure(m) => Err(ErrorValue("TypeError", m))
    case TimedOut => Err(ErrorValue("AbortError", AbortMessage))
    case Response(status, text, body) =>
      if IsOkStatus(status) then
        match body
        case Parsed(v) => Ok(v)
        case Unparsable(m) => Err(ErrorValue("SyntaxError", m))
      else Err(FailureError(status, text, body))
  }

  // ---------------------------------------------------------------------------
  // the retry rule and the back-off

  /** Whether a failed attempt is tried again: only below the attempt limit,
      only for an `Error` that is not an `AbortError`, never when its message
      contains the character '4', and never for a `TypeError` on the first
      attempt. */
  predicate ShouldRetry(attempt: int, retryAttempts: int, e: Thrown) {
    attempt < retryAttempts
    && e.IsError()
    && e.name != "AbortError"
    && !Includes(e.message, "4")
    && !(e.IsTypeError() && attempt == 1)
  }

  function Pow2(n: nat): (p: nat)
    ensures p >= 1
  {
    if n == 0 then 1 else 2 * Pow2(n - 1)
  }

  /** The delay before attempt `attempt + 1`, in milliseconds. */
  function Backoff(attempt: int): (d: int)
    requires attempt >= 1
    ensures 1000 <= d <= 5000
  {
    var d := 1000 * Pow2(attempt - 1);
    if d < 5000 then d else 5000
  }

  /** The delays are 1000, 2000 and 4000 ms, then 5000 ms from then on. */
  lemma BackoffValues(attempt: int)
    requires attempt >= 1
    ensures attempt == 1 ==> Backoff(attempt) == 1000
    ensures attempt == 2 ==> Backoff(attempt) == 2000
    ensures attempt == 3 ==> Backoff(attempt) == 4000
    ensures attempt >= 4 ==> Backoff(attempt) == 5000
  {
    if attempt >= 4 {
      Pow2AtLeast(attempt - 1);
    }
  }

  lemma {:induction false} Pow2AtLeast(n: nat)
    requires n >= 3
    ensures Pow2(n) >= 8
  {
    if n > 3 {
      Pow2AtLeast(n - 1);
    }
  }

  /** The back-off never shrinks from one attempt to the next. */
  lemma BackoffMonotone(a: int, b: int)
    requires 1 <= a <= b
    ensures Backoff(a) <= Backoff(b)
  {
    Pow2Monotone(a - 1, b - 1);
  }

  lemma {:induction false} Pow2Monotone(m: nat, n: nat)
    requires m <= n
    ensures Pow2(m) <= Pow2(n)
    decreases n
  {
    if m < n {
      Pow2Monotone(m, n - 1);
    }
  }

  // ---------------------------------------------------------------------------
  // the message of the error a request finally throws

  const NetworkPrefix: string := "Network error: Unable to connect to the backend server at "
  const NetworkChecklist: string :=
    ". Please check:\n1. Is your backend server running on port 8080?\n"
    + "2. Is CORS configured on your backend?\n3. Is the API URL correct in your .env file?\n\n"
  const OriginalLabel: string := "Original error: "
  const TimeoutPrefix: string := "Request timeout: The request took longer than "
  const TimeoutSuffix: string := " to complete. The backend might be slow or unresponsive."

  function NetworkErrorMessage(baseUrl: string, original: string): string {
    NetworkPrefix + baseUrl + NetworkChecklist + OriginalLabel + original
  }

  function TimeoutMessage(timeout: int): string {
    TimeoutPrefix + IntToString(timeout) + "ms" + TimeoutSuffix
  }

  /** `error?.name === n` */
  predicate NameIs(e: Thrown, n: string) {
    match e
    case ErrorValue(name, _) => name == n
    case NonErrorValue(v) => Property(v, "name") == Some(JStr(n))
  }

  /** The message of the `Error` a request throws once it stops retrying. */
  function FinalMessage(cfg: Config, e: Thrown): (m: string)
    ensures e.IsTypeError() && Includes(e.message, "fetch") ==>
      m == NetworkErrorMessage(cfg.baseUrl, e.message)
    ensures !(e.IsTypeError() && Includes(e.message, "fetch")) && NameIs(e, "AbortError") ==>
      m == TimeoutMessage(cfg.timeout)
    ensures !(e.IsTypeError() && Includes(e.message, "fetch")) && !NameIs(e, "AbortError") ==>
      m == MessageOr(e, "Unknown error occurred")
  {
    if e.IsTypeError() && Includes(e.message, "fetch") then NetworkErrorMessage(cfg.baseUrl, e.message)
    else if NameIs(e, "AbortError") then TimeoutMessage(cfg.timeout)
    else MessageOr(e, "Unknown error occurred")
  }

  /** The network message names the base URL and quotes the original message. */
  lemma NetworkMessageContents(baseUrl: string, original: string)
    ensures Includes(NetworkErrorMessage(baseUrl, original), baseUrl)
    ensures EndsWith(NetworkErrorMessage(baseUrl, original), OriginalLabel + original)
  {
    var m := NetworkErrorMessage(baseUrl, original);
    var tail := NetworkChecklist + OriginalLabel + original;
    assert m == NetworkPrefix + baseUrl + tail;
    IncludesMiddle(NetworkPrefix, baseUrl, tail);
    var head := NetworkPrefix + baseUrl + NetworkChecklist;
    assert m == head + (OriginalLabel + original);
    assert m[|head|..] == OriginalLabel + original;
  }

  /** The timeout message names the configured timeout in milliseconds. */
  lemma TimeoutMessageContents(timeout: int)
    ensures Includes(TimeoutMessage(timeout), IntToString(timeout) + "ms")
  {
    var d := IntToString(timeout) + "ms";
    assert TimeoutMessage(timeout) == TimeoutPrefix + d + TimeoutSuffix;
    IncludesMiddle(TimeoutPrefix, d, TimeoutSuffix);
  }

  // ---------------------------------------------------------------------------
  // the whole retry loop, as the recursion in the source

  /** What a logical request does: its result, how many attempts it made and
      the delays it waited between them. */
  datatype Trace = Trace(result: Result<Json, Thrown>, attempts: nat, delays: seq<int>)

  /** `request(endpoint, options, attempt)`: attempt `attempt` uses
      `outcomes[attempt - 1]`. */
  function Run(cfg: Config, outcomes: seq<Outcome>, attempt: int): Trace
    requires 1 <= attempt <= MaxAttempts(cfg) <= |outcomes|
    decreases cfg.retryAttempts - attempt
  {
    var r := Classify(outcomes[attempt - 1]);
    if r.Ok? then Trace(r, 1, [])
    else if ShouldRetry(attempt, cfg.retryAttempts, r.error) then
      var t := Run(cfg, outcomes, attempt + 1);
      Trace(t.result, t.attempts + 1, [Backoff(attempt)] + t.delays)
    else Trace(Err(PlainError(FinalMessage(cfg, r.error))), 1, [])
  }

  /** Attempt `k` failed and was retried. */
  predicate RetriedAt(cfg: Config, outcomes: seq<Outcome>, k: int)
    requires 1 <= k <= |outcomes|
  {
    var r := Classify(outcomes[k - 1]);
    r.Err? && ShouldRetry(k, cfg.retryAttempts, r.error)
  }

  /** What the loop ends with when it stops at attempt `n`. */
  function StopResult(cfg: Config, outcomes: seq<Outcome>, n: int): Result<Json, Thrown>
    requires 1 <= n <= |outcomes|
  {
    var r := Classify(outcomes[n - 1]);
    if r.Ok? then r else Err(PlainError(FinalMessage(cfg, r.error)))
  }

  /** The history `t` of the loop started at attempt `a`: it retries through
      every attempt before its last one, stops at the last one, waits
      `Backoff(k)` after each retried attempt `k`, and ends with the last
      attempt's value or its final error. */
  predicate RunShape(cfg: Config, outcomes: seq<Outcome>, a: int, t: Trace)
    requires 1 <= a <= MaxAttempts(cfg) <= |outcomes|
  {
    var n := a + t.attempts - 1;
    && 1 <= t.attempts && n <= MaxAttempts(cfg)
    && (forall k :: a <= k < n ==> RetriedAt(cfg, outcomes, k))
    && !RetriedAt(cfg, outcomes, n)
    && t.result == StopResult(cfg, outcomes, n)
    && |t.delays| == t.attempts - 1
    && (forall j :: 0 <= j < |t.delays| ==> t.delays[j] == Backoff(a + j))
  }

  /** Every loop, from whichever attempt it starts, has that history. */
  lemma {:induction false} RunFrom(cfg: Config, outcomes: seq<Outcome>, a: int)
    requires 1 <= a <= MaxAttempts(cfg) <= |outcomes|
    ensures RunShape(cfg, outcomes, a, Run(cfg, outcomes, a))
    decreases cfg.retryAttempts - a
  {
    if RetriedAt(cfg, outcomes, a) {
      RunRetried(cfg, outcomes, a);
      RunFrom(cfg, outcomes, a + 1);
      var t := Run(cfg, outcomes, a + 1);
      ShapeRetried(cfg, outcomes, a, t);
      assert Run(cfg, outcomes, a) == Trace(t.result, t.attempts + 1, [Backoff(a)] + t.delays);
    } else {
      RunStopped(cfg, outcomes, a);
    }
  }

  /** A retried attempt in front of a history is the history one attempt earlier. */
  lemma ShapeRetried(cfg: Config, outcomes: seq<Outcome>, a: int, t: Trace)
    requires 1 <= a < MaxAttempts(cfg) <= |outcomes| && RetriedAt(cfg, outcomes, a)
    requires RunShape(cfg, outcomes, a + 1, t)
    ensures RunShape(cfg, outcomes, a, Trace(t.result, t.attempts + 1, [Backoff(a)] + t.delays))
  {
    var u := Trace(t.result, t.attempts + 1, [Backoff(a)] + t.delays);
    var n := a + u.attempts - 1;
    assert n == a + 1 + t.attempts - 1;
    forall j | 0 <= j < |u.delays| ensures u.delays[j] == Backoff(a + j) {
      if j > 0 {
        assert u.delays[j] == t.delays[j - 1];
      }
    }
  }

  /** One retried attempt: the rest of the loop, one attempt and one delay more. */
  lemma RunRetried(cfg: Config, outcomes: seq<Outcome>, a: int)
    requires 1 <= a <= MaxAttempts(cfg) <= |outcomes| && RetriedAt(cfg, outcomes, a)
    ensures a < MaxAttempts(cfg)
    ensures var t := Run(cfg, outcomes, a + 1);
      Run(cfg, outcomes, a) == Trace(t.result, t.attempts + 1, [Backoff(a)] + t.delays)
  {
  }

  /** An attempt that is not retried ends the loop. */
  lemma RunStopped(cfg: Config, outcomes: seq<Outcome>, a: int)
    requires 1 <= a <= MaxAttempts(cfg) <= |outcomes| && !RetriedAt(cfg, outcomes, a)
    ensures Run(cfg, outcomes, a) == Trace(StopResult(cfg, outcomes, a), 1, [])
    ensures RunShape(cfg, outcomes, a, Run(cfg, outcomes, a))
  {
  }

  lemma DelaysAppend(ds: seq<int>, d: int, rest: seq<int>)
    ensures ds + ([d] + rest) == (ds + [d]) + rest
  {
  }

  /** The whole history of a logical request: it makes between one and
      `MaxAttempts` attempts, every attempt but the last failed and was
      retried, the last was not retried, the delays are the back-off of each
      retried attempt, and the result is the last attempt's value or error. */
  lemma RunSpec(cfg: Config, outcomes: seq<Outcome>)
    requires MaxAttempts(cfg) <= |outcomes|
    ensures var t := Run(cfg, outcomes, 1);
      && 1 <= t.attempts <= MaxAttempts(cfg)
      && (forall k :: 1 <= k < t.attempts ==> RetriedAt(cfg, outcomes, k))
      && !RetriedAt(cfg, outcomes, t.attempts)
      && t.result == StopResult(cfg, outcomes, t.attempts)
      && |t.delays| == t.attempts - 1
      && (forall j :: 0 <= j < |t.delays| ==> t.delays[j] == Backoff(j + 1))
  {
    RunFrom(cfg, outcomes, 1);
  }

  /** A request never throws anything but a plain `Error`. */
  lemma RunThrowsError(cfg: Config, outcomes: seq<Outcome>)
    requires MaxAttempts(cfg) <= |outcomes|
    ensures var t := Run(cfg, outcomes, 1);
      t.result.Err? ==> t.result.error.IsError() && t.result.error.name == "Error"
  {
    RunSpec(cfg, outcomes);
  }

  /** An attempt that failed with an error of this kind ends the request. */
  predicate NeverRetried(e: Thrown, attempt: int) {
    !e.IsError() || e.name == "AbortError" || Includes(e.message, "4") || (e.IsTypeError() && attempt == 1)
  }

  /** A timeout, a message containing '4' or a `TypeError` on the first
      attempt ends the request at that attempt: no later attempt is made.
      `NeverRetried` also copies the `instanceof Error` test, but every
      failure `Classify` gives is an `Error`, so its non-`Error` case never
      arises. */
  lemma NeverRetriedStops(cfg: Config, outcomes: seq<Outcome>, k: int)
    requires MaxAttempts(cfg) <= |outcomes| && 1 <= k <= |outcomes|
    requires Classify(outcomes[k - 1]).Err? && NeverRetried(Classify(outcomes[k - 1]).error, k)
    ensures Run(cfg, outcomes, 1).attempts <= k
  {
    RunSpec(cfg, outcomes);
    assert !RetriedAt(cfg, outcomes, k);
  }

  /** A request whose last attempt timed out fails with the timeout message,
      which names the configured timeout. */
  lemma TimeoutEndsRequest(cfg: Config, outcomes: seq<Outcome>, k: int)
    requires MaxAttempts(cfg) <= |outcomes| && 1 <= k <= |outcomes|
    requires Run(cfg, outcomes, 1).attempts == k && outcomes[k - 1].TimedOut?
    ensures var r := Run(cfg, outcomes, 1).result;
      r == Err(PlainError(TimeoutMessage(cfg.timeout)))
      && Includes(r.error.message, IntToString(cfg.timeout) + "ms")
  {
    RunSpec(cfg, outcomes);
    var e := Classify(outcomes[k - 1]).error;
    assert e == ErrorValue("AbortError", AbortMessage) && !e.IsTypeError();
    TimeoutMessageContents(cfg.timeout);
  }

  /** A request whose last attempt failed to reach the server fails with the
      diagnostic message, which names the base URL and quotes the browser's
      message. */
  lemma NetworkFailureMessage(cfg: Config, outcomes: seq<Outcome>, k: int)
    requires MaxAttempts(cfg) <= |outcomes| && 1 <= k <= |outcomes|
    requires Run(cfg, outcomes, 1).attempts == k
    requires outcomes[k - 1].NetworkFailure? && Includes(outcomes[k - 1].message, "fetch")
    ensures var r := Run(cfg, outcomes, 1).result;
      var original := outcomes[k - 1].message;
      r == Err(PlainError(NetworkErrorMessage(cfg.baseUrl, original)))
      && Includes(r.error.message, cfg.baseUrl)
      && EndsWith(r.error.message, OriginalLabel + original)
  {
    RunSpec(cfg, outcomes);
    NetworkMessageContents(cfg.baseUrl, outcomes[k - 1].message);
  }

  /** The '4' test reads the message, not the status: a 504 whose body has
      no truthy `message` fails with "Request failed with status 504", which
      contains '4', so it is not retried. */
  lemma GatewayTimeoutNotRetried(cfg: Config, outcomes: seq<Outcome>, text: string, body: Json)
    requires MaxAttempts(cfg) <= |outcomes|
    requires outcomes[0] == Response(504, text, Parsed(body))
    requires !body.JNull? && !TruthyOpt(Property(body, "message"))
    ensures Run(cfg, outcomes, 1).attempts == 1
    ensures Run(cfg, outcomes, 1).result == Err(PlainError(FailedPrefix + IntToString(504)))
  {
    var e := PlainError(FailedPrefix + IntToString(504));
    assert Classify(outcomes[0]) == Err(e);
    GatewayTimeoutMessage();
    assert !ShouldRetry(1, cfg.retryAttempts, e);
  }

  /** ... while a 504 whose body carries a message without '4' is retried. */
  lemma GatewayTimeoutWithMessageRetried(cfg: Config, outcomes: seq<Outcome>, text: string)
    requires 2 <= cfg.retryAttempts <= |outcomes|
    requires outcomes[0] == Response(504, text, Parsed(JObj([("message", JStr(GatewayTimeoutText))])))
    ensures RetriedAt(cfg, outcomes, 1)
    ensures Run(cfg, outcomes, 1).attempts >= 2
  {
    GatewayTimeoutBody(outcomes[0], text);
    GatewayTimeoutNoDigit();
    PlainFailureRetried(cfg, outcomes, GatewayTimeoutText);
  }

  /** A first attempt failing with a plain error whose message has no '4' is retried. */
  lemma PlainFailureRetried(cfg: Config, outcomes: seq<Outcome>, m: string)
    requires 2 <= cfg.retryAttempts <= |outcomes|
    requires Classify(outcomes[0]) == Err(PlainError(m)) && !Includes(m, "4")
    ensures RetriedAt(cfg, outcomes, 1)
    ensures Run(cfg, outcomes, 1).attempts >= 2
  {
    RunRetried(cfg, outcomes, 1);
  }

  lemma GatewayTimeoutBody(o: Outcome, text: string)
    requires o == Response(504, text, Parsed(JObj([("message", JStr(GatewayTimeoutText))])))
    ensures Classify(o) == Err(PlainError(GatewayTimeoutText))
  {
    assert Property(JObj([("message", JStr(GatewayTimeoutText))]), "message") == Some(JStr(GatewayTimeoutText));
  }

  lemma GatewayTimeoutNoDigit()
    ensures !Includes(GatewayTimeoutText, "4")
  {
    assert forall k :: 0 <= k < |GatewayTimeoutText| ==> GatewayTimeoutText[k] != '4';
    MissingCharExcludes(GatewayTimeoutText, "4", '4');
  }

  const GatewayTimeoutText: string := "Gateway Timeout"

  /** A non-OK response whose body is `null` fails with the `TypeError` of
      `null.message`, which is not retried on the first attempt. */
  lemma NullErrorBodyNotRetried(cfg: Config, outcomes: seq<Outcome>, status: int, text: string)
    requires MaxAttempts(cfg) <= |outcomes|
    requires outcomes[0] == Response(status, text, Parsed(JNull)) && !IsOkStatus(status)
    ensures Run(cfg, outcomes, 1).attempts == 1
    ensures Run(cfg, outcomes, 1).result == Err(PlainError(NullPropertyError("message").message))
  {
    var e := NullPropertyError("message");
    assert Classify(outcomes[0]) == Err(e);
    assert !ShouldRetry(1, cfg.retryAttempts, e);
    assert FinalMessage(cfg, e) == e.message by {
      NullReadNoFetch();
    }
  }

  lemma NullReadNoFetch()
    ensures !Includes(NullPropertyError("message").message, "fetch")
  {
    var m := NullPropertyError("message").message;
    assert 'h' !in NullReadPrefix && 'h' !in "message" && 'h' !in "')";
    MissingCharExcludes(m, "fetch", 'h');
  }

  lemma GatewayTimeoutMessage()
    ensures Includes(FailedPrefix + IntToString(504), "4")
  {
    var front := FailedPrefix + NatToString(50);
    assert IntToString(504) == NatToString(50) + [DigitChar(4)];
    assert DigitChar(4) == '4';
    IncludesMiddle(front, "4", "");
    assert front + "4" + "" == FailedPrefix + IntToString(504);
  }

  // ---------------------------------------------------------------------------
  // the query string of `get`

  /** `params[key] !== undefined && params[key] !== null && params[key] !== ''`,
      with `undefined` as `None`. */
  predicate Kept(v: Option<Json>) {
    v.Some? && v.value != JNull && v.value != JStr("")
  }

  /** The pairs `get` appends to `url.searchParams`, in key order, each value
      as `String(value)`. */
  function AppendedParams(ps: seq<(string, Option<Json>)>): (r: seq<FormUrl.Pair>)
    ensures |r| <= |ps|
  {
    if |ps| == 0 then []
    else (if Kept(ps[0].1) then [(ps[0].0, ToStr(ps[0].1.value))] else []) + AppendedParams(ps[1..])
  }

  /** Appending the parameters of `ps + qs` appends those of `ps`, then
      those of `qs`: `get` keeps the parameters' key order. */
  lemma {:induction false} AppendedParamsAppend(ps: seq<(string, Option<Json>)>, qs: seq<(string, Option<Json>)>)
    ensures AppendedParams(ps + qs) == AppendedParams(ps) + AppendedParams(qs)
    decreases |ps|
  {
    if |ps| == 0 {
      assert ps + qs == qs;
    } else {
      var pq := ps + qs;
      assert pq[0] == ps[0];
      assert pq[1..] == ps[1..] + qs;
      var head := if Kept(ps[0].1) then [(ps[0].0, ToStr(ps[0].1.value))] else [];
      assert AppendedParams(pq) == head + AppendedParams(pq[1..]);
      assert AppendedParams(ps) == head + AppendedParams(ps[1..]);
      AppendedParamsAppend(ps[1..], qs);
    }
  }

  /** Parameters that are all kept are appended one for one. */
  lemma {:induction false} AppendedAllKept(ps: seq<(string, Option<Json>)>)
    requires forall k :: 0 <= k < |ps| ==> ps[k].1.Some? && (ps[k].1.value.JNum? || (ps[k].1.value.JStr? && ps[k].1.value.s != ""))
    ensures AppendedParams(ps) == seq(|ps|, k requires 0 <= k < |ps| => (ps[k].0, ToStr(ps[k].1.value)))
    decreases |ps|
  {
    if |ps| > 0 {
      AppendedAllKept(ps[1..]);
      assert Kept(ps[0].1);
    }
  }

  /** Every kept parameter is appended as `String(value)` and nothing else
      is; the key order is stated by `AppendedParamsAppend` and
      `AppendedAllKept`. */
  lemma {:induction false} AppendedParamsSpec(ps: seq<(string, Option<Json>)>)
    ensures forall k :: 0 <= k < |ps| && Kept(ps[k].1) ==> (ps[k].0, ToStr(ps[k].1.value)) in AppendedParams(ps)
    ensures forall p :: p in AppendedParams(ps) ==>
      exists k :: 0 <= k < |ps| && Kept(ps[k].1) && p == (ps[k].0, ToStr(ps[k].1.value))
    ensures (forall k :: 0 <= k < |ps| ==> !Kept(ps[k].1)) <==> AppendedParams(ps) == []
    decreases |ps|
  {
    if |ps| > 0 {
      AppendedParamsSpec(ps[1..]);
      var head := if Kept(ps[0].1) then [(ps[0].0, ToStr(ps[0].1.value))] else [];
      assert AppendedParams(ps) == head + AppendedParams(ps[1..]);
      forall k | 0 <= k < |ps| && Kept(ps[k].1)
        ensures (ps[k].0, ToStr(ps[k].1.value)) in AppendedParams(ps)
      {
        if k > 0 {
          assert ps[1..][k - 1] == ps[k];
        }
      }
      forall p | p in AppendedParams(ps)
        ensures exists k :: 0 <= k < |ps| && Kept(ps[k].1) && p == (ps[k].0, ToStr(ps[k].1.value))
      {
        if p in head {
          assert Kept(ps[0].1) && p == (ps[0].0, ToStr(ps[0].1.value));
        } else {
          assert p in AppendedParams(ps[1..]);
          var k :| 0 <= k < |ps[1..]| && Kept(ps[1..][k].1) && p == (ps[1..][k].0, ToStr(ps[1..][k].1.value));
          assert ps[k + 1] == ps[1..][k];
        }
      }
      if forall k :: 0 <= k < |ps| ==> !Kept(ps[k].1) {
        assert forall k :: 0 <= k < |ps[1..]| ==> !Kept(ps[1..][k].1) by {
          forall k | 0 <= k < |ps[1..]| ensures !Kept(ps[1..][k].1) { assert ps[1..][k] == ps[k + 1]; }
        }
      }
    }
  }

  /** `url.search` for a query made of these pairs. */
  function Search(pairs: seq<FormUrl.Pair>): string {
    if |pairs| == 0 then "" else "?" + FormUrl.Serialize(pairs)
  }

  /** The query `get` builds parses back to exactly the appended pairs. */
  lemma SearchParses(ps: seq<(string, Option<Json>)>)
    ensures var s := Search(AppendedParams(ps));
      s == "" || (s[0] == '?' && FormUrl.Parse(s[1..]) == Some(AppendedParams(ps)))
  {
    var pairs := AppendedParams(ps);
    if |pairs| > 0 {
      var s := Search(pairs);
      assert s[1..] == FormUrl.Serialize(pairs);
      FormUrl.ParseSerialize(pairs);
    }
  }

  /** The endpoint `get` passes to `request`: the endpoint itself without
      parameters, else `url.pathname + url.search` of `new URL(baseURL +
      endpoint)`, where the path name is the base path followed by the
      endpoint. */
  function GetEndpoint(basePath: string, endpoint: string, params: Option<seq<(string, Option<Json>)>>): string {
    if params.None? then endpoint else basePath + endpoint + Search(AppendedParams(params.value))
  }

  /** The URL `get` is evidently meant to request: the base URL, the endpoint
      and the query, with the base path once. */
  function IntendedGetUrl(origin: string, basePath: string, endpoint: string,
                          params: Option<seq<(string, Option<Json>)>>): string {
    origin + basePath + endpoint + (if params.None? then "" else Search(AppendedParams(params.value)))
  }

  /** With parameters, `get` requests the base path twice: `request` puts the
      base URL in front of a path that already starts with the base path. */
  lemma GetDuplicatesBasePath(origin: string, basePath: string, endpoint: string,
                              ps: seq<(string, Option<Json>)>)
    ensures origin + basePath + GetEndpoint(basePath, endpoint, Some(ps))
         == origin + basePath + basePath + endpoint + Search(AppendedParams(ps))
    ensures basePath != "" ==>
      origin + basePath + GetEndpoint(basePath, endpoint, Some(ps)) != IntendedGetUrl(origin, basePath, endpoint, Some(ps))
  {
    var q := Search(AppendedParams(ps));
    assert GetEndpoint(basePath, endpoint, Some(ps)) == basePath + endpoint + q;
    Regroup(origin + basePath, basePath, endpoint, q);
    var u := origin + basePath + GetEndpoint(basePath, endpoint, Some(ps));
    var w := IntendedGetUrl(origin, basePath, endpoint, Some(ps));
    assert w == origin + basePath + endpoint + q;
    assert |u| == |w| + |basePath|;
  }

  lemma Regroup(a: string, b: string, c: string, d: string)
    ensures a + (b + c + d) == a + b + c + d
  {
  }

  /** The endpoint `get` is evidently meant to pass to `request`: the
      endpoint and the query alone, so that `request` puts the base URL in
      front of it once.  The requested URL is then the base URL, the
      endpoint, and a query that parses back to exactly the kept parameters. */
  function CorrectedGetEndpoint(endpoint: string, params: Option<seq<(string, Option<Json>)>>): (e: string)
    ensures params.None? ==> e == endpoint
    ensures |e| >= |endpoint| && e[..|endpoint|] == endpoint
    ensures params.Some? ==> var q := e[|endpoint|..];
      q == "" || (q[0] == '?' && FormUrl.Parse(q[1..]) == Some(AppendedParams(params.value)))
  {
    if params.None? then endpoint
    else
      var q := Search(AppendedParams(params.value));
      SearchParses(params.value);
      assert (endpoint + q)[|endpoint|..] == q;
      endpoint + q
  }

  /** With the corrected endpoint every `get` requests the intended URL, and
      without parameters the corrected and the written `get` agree. */
  lemma CorrectedGetRequestsIntendedUrl(origin: string, basePath: string, endpoint: string,
                                        params: Option<seq<(string, Option<Json>)>>)
    ensures origin + basePath + CorrectedGetEndpoint(endpoint, params) == IntendedGetUrl(origin, basePath, endpoint, params)
    ensures params.None? ==> GetEndpoint(basePath, endpoint, params) == CorrectedGetEndpoint(endpoint, params)
  {
    var q := if params.None? then "" else Search(AppendedParams(params.value));
    assert CorrectedGetEndpoint(endpoint, params) == endpoint + q;
    Regroup(origin, basePath, endpoint, q);
  }

  /** With the default base URL, `get("/sales-orders", { page: 0 })` requests
      `http://localhost:8080/api/api/sales-orders?page=0`. */
  lemma GetDuplicatesDefaultBasePath()
    ensures var ps := [("page", Some(JNum(0)))];
      "http://localhost:8080" + "/api" + GetEndpoint("/api", "/sales-orders", Some(ps))
      == "http://localhost:8080" + "/api" + "/api" + "/sales-orders" + "?page=0"
  {
    var ps := [("page", Some(JNum(0)))];
    PageQuery();
    GetDuplicatesBasePath("http://localhost:8080", "/api", "/sales-orders", ps);
  }

  lemma PageQuery()
    ensures Search(AppendedParams([("page", Some(JNum(0)))])) == "?page=0"
  {
    var ps := [("page", Some(JNum(0)))];
    assert AppendedParams(ps) == [("page", "0")] by {
      assert AppendedParams(ps[1..]) == [];
      assert ToStr(JNum(0)) == "0";
    }
    PageSerialize();
  }

  lemma PageSerialize()
    ensures FormUrl.Serialize([("page", "0")]) == "page=0"
  {
    SerializeSingle(("page", "0"));
    EncodePage();
    EncodeZero();
    assert FormUrl.EncodePair(("page", "0")) == "page" + "=" + "0";
  }

  lemma EncodePage()
    ensures FormUrl.Encode("page") == "page"
  {
    var w := "page";
    assert w[0] == 'p' && w[1] == 'a' && w[2] == 'g' && w[3] == 'e';
    assert forall k :: 0 <= k < |w| ==> ('a' <= w[k] <= 'z' || '0' <= w[k] <= '9');
    EncodeAsciiWord(w);
  }

  lemma EncodeZero()
    ensures FormUrl.Encode("0") == "0"
  {
    EncodeAsciiWord("0");
  }

  /** A single pair serializes as its own encoding. */
  lemma SerializeSingle(p: FormUrl.Pair)
    ensures FormUrl.Serialize([p]) == FormUrl.EncodePair(p)
  {
    assert FormUrl.EncodePairs([p]) == [FormUrl.EncodePair(p)];
  }

  /** A word of letters and digits is written as it is. */
  lemma {:induction false} EncodeAsciiWord(w: string)
    requires forall k :: 0 <= k < |w| ==> ('a' <= w[k] <= 'z' || '0' <= w[k] <= '9')
    ensures FormUrl.Encode(w) == w
  {
    Utf8.EncodeAscii(w);
    assert Utf8.Encode(w) == seq(|w|, k requires 0 <= k < |w| => w[k] as int);
    EncodeBytesWord(w);
  }

  lemma {:induction false} EncodeBytesWord(w: string)
    requires forall k :: 0 <= k < |w| ==> ('a' <= w[k] <= 'z' || '0' <= w[k] <= '9')
    ensures FormUrl.EncodeBytes(seq(|w|, k requires 0 <= k < |w| => w[k] as int)) == w
    decreases |w|
  {
    if |w| > 0 {
      var bs := seq(|w|, k requires 0 <= k < |w| => w[k] as int);
      EncodeBytesWord(w[1..]);
      assert bs[1..] == seq(|w[1..]|, k requires 0 <= k < |w[1..]| => w[1..][k] as int);
      assert FormUrl.EncodeByte(bs[0]) == [w[0]];
      assert [w[0]] + w[1..] == w;
    }
  }

  // ---------------------------------------------------------------------------
  // the client object

  /** `fetch`'s request options the model distinguishes. */
  datatype RequestOptions = RequestOptions(verb: Option<string>, headers: Option<map<string, string>>, body: Option<string>)

  const NoOptions: RequestOptions := RequestOptions(None, None, None)

  /** One call of `fetch`. */
  datatype Call = Call(url: string, verb: string, headers: map<string, string>, body: Option<string>)

  /** The headers sent: the default headers merged with the caller's, and
      then replaced by the caller's, because `...options` comes last. */
  function SentHeaders(defaults: map<string, string>, options: RequestOptions): (h: map<string, string>)
    ensures options.headers.None? ==> h == defaults
    ensures options.headers.Some? ==> h == options.headers.value
  {
    var merged := defaults + options.headers.GetOr(map[]);
    if options.headers.Some? then options.headers.value else merged
  }

  /** `data ? JSON.stringify(data) : undefined` */
  function BodyOf(data: Option<Json>): (b: Option<string>)
    ensures b.Some? <==> data.Some? && Truthy(data.value)
    ensures b.Some? ==> b.value == Stringify(data.value)
  {
    if data.Some? && Truthy(data.value) then Some(Stringify(data.value)) else None
  }

  /** The `ApiClient` object: its base URL, timeout and retry limit are fixed
      at construction; its default headers change with the auth token. */
  class Client {
    const origin: string
    const basePath: string
    const timeout: int
    const retryAttempts: int
    var defaultHeaders: map<string, string>

    function BaseUrl(): string {
      origin + basePath
    }

    function Cfg(): Config {
      Config(origin + basePath, timeout, retryAttempts)
    }

    constructor(env: Env)
      ensures origin == env.origin && basePath == env.basePath
      ensures timeout == env.timeout && retryAttempts == env.retryAttempts
      ensures defaultHeaders == InitialHeaders(env)
    {
      origin := env.origin;
      basePath := env.basePath;
      timeout := env.timeout;
      retryAttempts := env.retryAttempts;
      defaultHeaders := InitialHeaders(env);
    }

    /** The `fetch` call every attempt of a request makes. */
    function AttemptCall(endpoint: string, options: RequestOptions): Call
      reads this
    {
      Call(origin + basePath + endpoint, options.verb.GetOr("GET"), SentHeaders(defaultHeaders, options), options.body)
    }

    /** `request(endpoint, options)`: the recursion on `attempt` as a loop.
        Every attempt makes the same call; the result, the number of attempts
        and the delays are those of `Run`. */
    method Request(endpoint: string, options: RequestOptions, outcomes: seq<Outcome>)
      returns (result: Result<Json, Thrown>, calls: seq<Call>, delays: seq<int>)
      requires MaxAttempts(Cfg()) <= |outcomes|
      ensures var t := Run(Cfg(), outcomes, 1);
        result == t.result && |calls| == t.attempts && delays == t.delays
      ensures forall k :: 0 <= k < |calls| ==> calls[k] == AttemptCall(endpoint, options)
    {
      var cfg := Cfg();
      var call := AttemptCall(endpoint, options);
      var attempt := 1;
      calls := [];
      delays := [];
      while true
        invariant 1 <= attempt <= MaxAttempts(cfg)
        invariant |calls| == attempt - 1 && forall k :: 0 <= k < |calls| ==> calls[k] == call
        invariant var rest := Run(cfg, outcomes, attempt);
          Run(cfg, outcomes, 1) == Trace(rest.result, attempt - 1 + rest.attempts, delays + rest.delays)
        decreases retryAttempts - attempt
      {
        calls := calls + [call];
        var r := Classify(outcomes[attempt - 1]);
        if r.Ok? {
          RunStopped(cfg, outcomes, attempt);
          result := r;
          return;
        }
        if !ShouldRetry(attempt, cfg.retryAttempts, r.error) {
          RunStopped(cfg, outcomes, attempt);
          result := Err(PlainError(FinalMessage(cfg, r.error)));
          return;
        }
        RunRetried(cfg, outcomes, attempt);
        DelaysAppend(delays, Backoff(attempt), Run(cfg, outcomes, attempt + 1).delays);
        delays := delays + [Backoff(attempt)];
        attempt := attempt + 1;
      }
    }

    /** `get(endpoint, params)`: the parameters kept by `Kept` are appended
        to the query in order, and the resulting path and query are requested. */
    method Get(endpoint: string, params: Option<seq<(string, Option<Json>)>>, outcomes: seq<Outcome>)
      returns (result: Result<Json, Thrown>, calls: seq<Call>, delays: seq<int>)
      requires MaxAttempts(Cfg()) <= |outcomes|
      ensures var t := Run(Cfg(), outcomes, 1);
        result == t.result && |calls| == t.attempts && delays == t.delays
      ensures forall k :: 0 <= k < |calls| ==>
        calls[k] == Call(origin + basePath + GetEndpoint(basePath, endpoint, params), "GET", defaultHeaders, None)
    {
      var finalUrl := endpoint;
      if params.Some? {
        var ps := params.value;
        var appended: seq<FormUrl.Pair> := [];
        var i := 0;
        while i < |ps|
          invariant 0 <= i <= |ps|
          invariant appended + AppendedParams(ps[i..]) == AppendedParams(ps)
        {
          assert ps[i..] == [ps[i]] + ps[i + 1..];
          if Kept(ps[i].1) {
            appended := appended + [(ps[i].0, ToStr(ps[i].1.value))];
          }
          i := i + 1;
        }
        assert appended == AppendedParams(ps);
        finalUrl := basePath + endpoint + Search(appended);
      }
      result, calls, delays := Request(finalUrl, NoOptions, outcomes);
    }

    /** `post(endpoint, data)` */
    method Post(endpoint: string, data: Option<Json>, outcomes: seq<Outcome>)
      returns (result: Result<Json, Thrown>, calls: seq<Call>, delays: seq<int>)
      requires MaxAttempts(Cfg()) <= |outcomes|
      ensures var t := Run(Cfg(), outcomes, 1);
        result == t.result && |calls| == t.attempts && delays == t.delays
      ensures forall k :: 0 <= k < |calls| ==>
        calls[k] == Call(origin + basePath + endpoint, "POST", defaultHeaders, BodyOf(data))
    {
      result, calls, delays := Request(endpoint, RequestOptions(Some("POST"), None, BodyOf(data)), outcomes);
    }

    /** `put(endpoint, data)` */
    method Put(endpoint: string, data: Option<Json>, outcomes: seq<Outcome>)
      returns (result: Result<Json, Thrown>, calls: seq<Call>, delays: seq<int>)
      requires MaxAttempts(Cfg()) <= |outcomes|
      ensures var t := Run(Cfg(), outcomes, 1);
        result == t.result && |calls| == t.attempts && delays == t.delays
      ensures forall k :: 0 <= k < |calls| ==>
        calls[k] == Call(origin + basePath + endpoint, "PUT", defaultHeaders, BodyOf(data))
    {
      result, calls, delays := Request(endpoint, RequestOptions(Some("PUT"), None, BodyOf(data)), outcomes);
    }

    /** `patch(endpoint, data)` */
    method Patch(endpoint: string, data: Option<Json>, outcomes: seq<Outcome>)
      returns (result: Result<Json, Thrown>, calls: seq<Call>, delays: seq<int>)
      requires MaxAttempts(Cfg()) <= |outcomes|
      ensures var t := Run(Cfg(), outcomes, 1);
        result == t.result && |calls| == t.attempts && delays == t.delays
      ensures forall k :: 0 <= k < |calls| ==>
        calls[k] == Call(origin + basePath + endpoint, "PATCH", defaultHeaders, BodyOf(data))
    {
      result, calls, delays := Request(endpoint, RequestOptions(Some("PATCH"), None, BodyOf(data)), outcomes);
    }

    /** `delete(endpoint)` */
    method Delete(endpoint: string, outcomes: seq<Outcome>)
      returns (result: Result<Json, Thrown>, calls: seq<Call>, delays: seq<int>)
      requires MaxAttempts(Cfg()) <= |outcomes|
      ensures var t := Run(Cfg(), outcomes, 1);
        result == t.result && |calls| == t.attempts && delays == t.delays
      ensures forall k :: 0 <= k < |calls| ==>
        calls[k] == Call(origin + basePath + endpoint, "DELETE", defaultHeaders, None)
    {
      result, calls, delays := Request(endpoint, RequestOptions(Some("DELETE"), None, None), outcomes);
    }

    /** `setAuthToken(token)`: only the `Authorization` header changes. */
    method SetAuthToken(token: string)
      modifies this
      ensures defaultHeaders == old(defaultHeaders)["Authorization" := "Bearer " + token]
    {
      defaultHeaders := defaultHeaders["Authorization" := "Bearer " + token];
    }

    /** `removeAuthToken()`: only the `Authorization` header goes. */
    method RemoveAuthToken()
      modifies this
      ensures defaultHeaders == old(defaultHeaders) - {"Authorization"}
    {
      defaultHeaders := defaultHeaders - {"Authorization"};
    }
  }

  /** Setting a token touches no other header, and removing it afterwards
      restores headers that had none. */
  lemma AuthTokenRoundTrip(h: map<string, string>, token: string)
    ensures var set1 := h["Authorization" := "Bearer " + token];
      set1["Authorization"] == "Bearer " + token
      && (forall k :: k in h && k != "Authorization" ==> k in set1 && set1[k] == h[k])
      && ("Authorization" !in h ==> set1 - {"Authorization"} == h)
  {
  }
}
