/**
 * `ApiLoggingService`: what is recorded about one API request and where it is written.
 * The service derives a log level, redacts sensitive headers and input fields, keeps a
 * bounded preview of the response, runs two security heuristics, stores the row, writes
 * the file, security and performance log entries, and keeps any `Exception` raised while
 * logging from reaching its caller.
 */
module LoggingService {
  import opened Wrappers
  import opened Text
  import opened JsonValue
  import opened ApiLog
  import opened Query
  import opened Logs
  import opened SqlPatterns

  // ---------------------------------------------------------------------------
  // What the service reads

  /** An HTTP request. Header names are lower-case, as Symfony's header bag stores them. */
  datatype Request = Request(
    httpMethod: string,
    fullUrl: string,
    path: string,
    headers: map<string, seq<string>>,
    input: map<string, Json>,
    remoteIp: string)

  datatype Response = Response(status: int, content: string, headers: map<string, seq<string>>)

  /**
   * A `Throwable`: its message, origin, trace text and frames, and the message of the
   * previous throwable.
   */
  datatype Thrown = Thrown(
    message: string,
    file: string,
    line: int,
    trace: string,
    frames: seq<Json>,
    previous: Option<string>)

  /** The authenticated user: `auth()->id()` and the user's `type` attribute. */
  datatype User = User(id: string, userType: Option<string>)

  /** `json_encode($request->all(), JSON_THROW_ON_ERROR)`: the text, or the `JsonException` message. */
  datatype Encoding = Encoded(text: string) | EncodeFailed(message: string)

  /**
   * What the service takes from outside the request: the clock in seconds, the elapsed
   * time in hundredths of a millisecond, the authenticated user, the encoded input, the
   * `buildMetadata` array, the application environment's name and, when `ApiLog::create`
   * fails, the message of its exception.
   */
  datatype Environment = Environment(
    now: int,
    elapsed: nat,
    user: Option<User>,
    encodedInput: Encoding,
    metadata: Json,
    appEnvironment: string,
    databaseError: Option<string>)

  /** The `logging.*` configuration the service reads; thresholds in milliseconds. */
  datatype Config = Config(
    logToDatabase: bool,
    performanceLogging: bool,
    slowThresholdMs: nat,
    verySlowThresholdMs: nat)

  /** The defaults `config(...)` falls back to when a key is not set. */
  const DefaultConfig := Config(true, false, 1000, 5000)

  /** `$request->header($name)`: the first value stored under the lower-case name. */
  function Header(headers: map<string, seq<string>>, name: string): Option<string>
  {
    if name in headers && headers[name] != [] then Some(headers[name][0]) else None
  }

  function OptionalText(v: Option<string>): Json
  {
    if v.Some? then JStr(v.value) else JNull
  }

  function StringsJson(xs: seq<string>): Json
  {
    JList(seq(|xs|, i requires 0 <= i < |xs| => JStr(xs[i])))
  }

  function HeadersJson(headers: map<string, seq<string>>): Json
  {
    JObject(map k | k in headers :: StringsJson(headers[k]))
  }

  // ---------------------------------------------------------------------------
  // Level and client address

  /** Info, warning and error in increasing order of severity. */
  function LevelRank(level: LogLevel): nat
  {
    match level
    case Info => 0
    case Warning => 1
    case Error => 2
  }

  /** `determineLogLevel`, the response time in hundredths of a millisecond. */
  function DetermineLogLevel(statusCode: int, responseTime: nat, failed: bool): (level: LogLevel)
    ensures level == Error <==> failed || statusCode >= 500
    ensures level == Warning <==> !failed && statusCode < 500 && (statusCode >= 400 || responseTime > 500000)
    ensures level == Info <==> !failed && statusCode < 400 && responseTime <= 500000
  {
    if failed || statusCode >= 500 then Error
    else if statusCode >= 400 || responseTime > 500000 then Warning
    else Info
  }

  /** A worse status, a slower response or a failure never lowers the level. */
  lemma LevelMonotone(s1: int, t1: nat, f1: bool, s2: int, t2: nat, f2: bool)
    requires s1 <= s2 && t1 <= t2 && (f1 ==> f2)
    ensures LevelRank(DetermineLogLevel(s1, t1, f1)) <= LevelRank(DetermineLogLevel(s2, t2, f2))
  {
  }

  /** `getClientIp`: `X-Forwarded-For`, else `X-Real-IP`, else the connection's address. */
  function GetClientIp(request: Request): (ip: string)
    ensures Header(request.headers, "x-forwarded-for").Some? ==>
              ip == Header(request.headers, "x-forwarded-for").value
    ensures Header(request.headers, "x-forwarded-for").None? && Header(request.headers, "x-real-ip").Some? ==>
              ip == Header(request.headers, "x-real-ip").value
    ensures Header(request.headers, "x-forwarded-for").None? && Header(request.headers, "x-real-ip").None? ==>
              ip == request.remoteIp
  {
    match Header(request.headers, "x-forwarded-for")
    case Some(forwarded) => forwarded
    case None =>
      match Header(request.headers, "x-real-ip")
      case Some(realIp) => realIp
      case None => request.remoteIp
  }

  // ---------------------------------------------------------------------------
  // Redaction

  const RedactionMarker := "[REDACTED]"
  const SensitiveHeaders: seq<string> := ["authorization", "x-api-key", "cookie", "x-auth-token"]
  const SensitiveFields: seq<string> := ["password", "token", "secret", "key", "api_key"]

  /** The headers with the value list of every sensitive one replaced by the marker alone. */
  function RedactHeaders(headers: map<string, seq<string>>): (r: map<string, seq<string>>)
    ensures r.Keys == headers.Keys
    ensures forall k :: k in r && k in SensitiveHeaders ==> r[k] == [RedactionMarker]
    ensures forall k :: k in r && k !in SensitiveHeaders ==> r[k] == headers[k]
  {
    map k | k in headers :: if k in SensitiveHeaders then [RedactionMarker] else headers[k]
  }

  /** `sanitizeHeaders`: overwrite each sensitive header that is set, in a copy of the array. */
  method SanitizeHeaders(headers: map<string, seq<string>>) returns (r: map<string, seq<string>>)
    ensures r == RedactHeaders(headers)
  {
    r := headers;
    for i := 0 to |SensitiveHeaders|
      invariant r.Keys == headers.Keys
      invariant forall k :: k in r ==> r[k] == if k in SensitiveHeaders[..i] then [RedactionMarker] else headers[k]
    {
      var name := SensitiveHeaders[i];
      if name in r {
        r := r[name := [RedactionMarker]];
      }
    }
    assert SensitiveHeaders[..|SensitiveHeaders|] == SensitiveHeaders;
  }

  lemma RedactHeadersIdempotent(headers: map<string, seq<string>>)
    ensures RedactHeaders(RedactHeaders(headers)) == RedactHeaders(headers)
  {
  }

  /** `isset($data[$f])`: present and not null. */
  predicate IsSet(data: map<string, Json>, f: string)
  {
    f in data && data[f] != JNull
  }

  /**
   * The request input as stored: null for an empty input, otherwise the same fields
   * with every sensitive one that is set replaced by the marker text.
   */
  function RedactInput(data: map<string, Json>): (r: Json)
    ensures r == JNull <==> data == map[]
    ensures r != JNull ==> r.JObject? && r.fields.Keys == data.Keys
    ensures r.JObject? ==> forall k :: k in data && k in SensitiveFields && IsSet(data, k) ==>
              r.fields[k] == JStr(RedactionMarker)
    ensures r.JObject? ==> forall k :: k in data && !(k in SensitiveFields && IsSet(data, k)) ==>
              r.fields[k] == data[k]
  {
    if data == map[] then JNull
    else JObject(map k | k in data :: if k in SensitiveFields && IsSet(data, k) then JStr(RedactionMarker) else data[k])
  }

  /** `sanitizeRequestData`. */
  method SanitizeRequestData(data: map<string, Json>) returns (r: Json)
    ensures r == RedactInput(data)
  {
    if data == map[] {
      return JNull;
    }
    var fields := data;
    for i := 0 to |SensitiveFields|
      invariant fields.Keys == data.Keys
      invariant forall k :: k in fields ==>
        fields[k] == if k in SensitiveFields[..i] && IsSet(data, k) then JStr(RedactionMarker) else data[k]
    {
      var f := SensitiveFields[i];
      if f in fields && fields[f] != JNull {
        fields := fields[f := JStr(RedactionMarker)];
      }
    }
    assert SensitiveFields[..|SensitiveFields|] == SensitiveFields;
    r := JObject(fields);
  }

  /** Redacting stored input again changes nothing. */
  lemma RedactInputIdempotent(data: map<string, Json>)
    requires data != map[]
    ensures RedactInput(RedactInput(data).fields) == RedactInput(data)
  {
    var once := RedactInput(data).fields;
    forall k | k in once ensures RedactInput(once).fields[k] == once[k] {
    }
  }

  /** Only top-level fields are redacted: a password nested in an object is stored as sent. */
  lemma NestedSecretKept(secret: string)
    ensures var data := map["user" := JObject(map["password" := JStr(secret)])];
            && RedactInput(data).JObject? && "user" in RedactInput(data).fields
            && RedactInput(data).fields["user"] == data["user"]
  {
    var data := map["user" := JObject(map["password" := JStr(secret)])];
    assert "user" in data;
    assert forall i | 0 <= i < |SensitiveFields| :: SensitiveFields[i] != "user";
  }

  // ---------------------------------------------------------------------------
  // Response preview

  const PreviewLength := 1000

  /** What a PHP function declared `: array|null` may return besides null. */
  predicate IsArray(v: Json)
  {
    v.JList? || v.JObject?
  }

  function Truncated(content: string): Json
    requires |content| > PreviewLength
  {
    JObject(map["truncated" := JBool(true), "preview" := JStr(content[..PreviewLength])])
  }

  function Raw(content: string): Json
  {
    JObject(map["raw" := JStr(content)])
  }

  /** How `sanitizeResponseData` ends as written: a value, or one of two throws. */
  datatype ResponseDataOutcome = Kept(data: Json) | ThrowsJsonException | ThrowsTypeError

  /**
   * `sanitizeResponseData` as written, with `decode` standing for `json_decode(...,
   * JSON_THROW_ON_ERROR)` (`None` when it throws). A body that is not JSON throws a
   * `JsonException`; a body that decodes to a scalar is returned from a function declared
   * `: array|null`, which throws a `TypeError`.
   */
  function ResponseDataAsWritten(response: Option<Response>, decode: string -> Option<Json>): (o: ResponseDataOutcome)
    ensures response.None? ==> o == Kept(JNull)
    ensures o.ThrowsJsonException? <==>
              response.Some? && |response.value.content| <= PreviewLength && decode(response.value.content).None?
    ensures o.ThrowsTypeError? <==>
              response.Some? && |response.value.content| <= PreviewLength && decode(response.value.content).Some? &&
              decode(response.value.content).value != JNull && !IsArray(decode(response.value.content).value)
  {
    match response
    case None => Kept(JNull)
    case Some(r) =>
      if |r.content| > PreviewLength then Kept(Truncated(r.content))
      else
        match decode(r.content)
        case None => ThrowsJsonException
        case Some(v) =>
          if v == JNull then Kept(Raw(r.content))
          else if IsArray(v) then Kept(v)
          else ThrowsTypeError
  }

  /**
   * `sanitizeResponseData` as its fallback `['raw' => $content]` evidently intends: a body
   * that is not a JSON array is kept raw instead of throwing. It is null exactly when there
   * is no response, never anything but an array otherwise, and loses none of a short body.
   */
  function ResponseData(response: Option<Response>, decode: string -> Option<Json>): (data: Json)
    ensures data == JNull <==> response.None?
    ensures data != JNull ==> IsArray(data)
    ensures response.Some? && |response.value.content| > PreviewLength ==> data == Truncated(response.value.content)
    ensures response.Some? && |response.value.content| <= PreviewLength ==>
              data == Raw(response.value.content) ||
              (decode(response.value.content) == Some(data) && IsArray(data))
  {
    match response
    case None => JNull
    case Some(r) =>
      if |r.content| > PreviewLength then Truncated(r.content)
      else
        match decode(r.content)
        case Some(v) => if IsArray(v) then v else Raw(r.content)
        case None => Raw(r.content)
  }

  /** The correction changes only the cases that threw. */
  lemma ResponseDataAgrees(response: Option<Response>, decode: string -> Option<Json>)
    ensures ResponseDataAsWritten(response, decode).Kept? ==>
              ResponseDataAsWritten(response, decode).data == ResponseData(response, decode)
  {
  }

  /** A long body is kept as its first thousand characters exactly. */
  lemma PreviewIsPrefix(content: string)
    requires |content| > PreviewLength
    ensures Truncated(content).fields["preview"].s == content[..PreviewLength]
    ensures |Truncated(content).fields["preview"].s| == PreviewLength
    ensures Truncated(content).fields["truncated"] == JBool(true)
  {
  }

  /** An empty body (a `204 No Content`) makes the preview throw as written. */
  lemma EmptyBodyThrows(decode: string -> Option<Json>)
    requires decode("") == None
    ensures ResponseDataAsWritten(Some(Response(204, "", map[])), decode) == ThrowsJsonException
    ensures ResponseData(Some(Response(204, "", map[])), decode) == Raw("")
  {
  }

  /** A body that decodes to a scalar makes the declared return type throw as written. */
  lemma ScalarBodyThrows(decode: string -> Option<Json>)
    requires decode("true") == Some(JBool(true))
    ensures ResponseDataAsWritten(Some(Response(200, "true", map[])), decode) == ThrowsTypeError
    ensures ResponseData(Some(Response(200, "true", map[])), decode) == Raw("true")
  {
  }

  // ---------------------------------------------------------------------------
  // Security heuristics

  /** `detectSqlInjection`: `None` when encoding the input throws a `JsonException`. */
  method DetectSqlInjection(encoded: Encoding) returns (found: Option<bool>)
    ensures found.None? <==> encoded.EncodeFailed?
    ensures found.Some? ==> (found.value <==> Flagged(encoded.text))
  {
    if encoded.EncodeFailed? {
      return None;
    }
    var input := encoded.text;
    for k := 0 to |Patterns|
      invariant forall j | 0 <= j < k :: !Matches(input, Patterns[j])
    {
      if Matches(input, Patterns[k]) {
        return Some(true);
      }
    }
    return Some(false);
  }

  const SuspiciousAgents: seq<string> := ["curl", "wget", "python-requests", "bot", "crawler"]

  /** `stripos($userAgent, $agent) !== false` for some listed agent; a missing agent reads as "". */
  predicate SuspiciousAgent(userAgent: Option<string>)
  {
    exists i | 0 <= i < |SuspiciousAgents| :: ContainsIgnoringCase(userAgent.GetOr(""), SuspiciousAgents[i])
  }

  /** The clauses of the burst query: the same client address, created within the last minute. */
  function RecentFrom(ip: string, now: int): seq<Filter>
  {
    [IpIs(ip), CreatedAtFrom(now - 60)]
  }

  const BurstLimit := 60

  /** What `detectUnusualPatterns` reports for a request, given the rows stored before it. */
  predicate Unusual(userAgent: Option<string>, ip: string, rows: seq<ApiLogRecord>, now: int)
  {
    SuspiciousAgent(userAgent) || CountOf(rows, RecentFrom(ip, now), None) > BurstLimit
  }

  /** `detectUnusualPatterns`: the agent list first, then the per-minute count. */
  method DetectUnusualPatterns(userAgent: Option<string>, ip: string, rows: seq<ApiLogRecord>, now: int)
    returns (unusual: bool)
    ensures unusual <==> Unusual(userAgent, ip, rows, now)
  {
    var agent := userAgent.GetOr("");
    for i := 0 to |SuspiciousAgents|
      invariant forall j | 0 <= j < i :: !ContainsIgnoringCase(agent, SuspiciousAgents[j])
    {
      if ContainsIgnoringCase(agent, SuspiciousAgents[i]) {
        return true;
      }
    }
    var query := new Builder(rows, [IpIs(ip)]);
    query.Where(CreatedAtFrom(now - 60));
    assert query.filters == RecentFrom(ip, now);
    var recent := query.Count();
    return recent > BurstLimit;
  }

  lemma {:induction false} SelectedAll(rows: seq<ApiLogRecord>, fs: seq<Filter>)
    requires forall row :: row in rows ==> AllHold(fs, row)
    ensures Selected(rows, fs) == rows
  {
    if rows != [] {
      SelectedAll(rows[..|rows| - 1], fs);
      assert rows[..|rows| - 1] + [rows[|rows| - 1]] == rows;
    }
  }

  /**
   * A burst from one address: with `n` earlier rows from it in the last minute and an
   * ordinary agent, a request is flagged exactly when `n > 60`, so the 62nd request of a
   * minute is the first one flagged.
   */
  lemma BurstThreshold(userAgent: Option<string>, ip: string, rows: seq<ApiLogRecord>, now: int)
    requires !SuspiciousAgent(userAgent)
    requires forall row :: row in rows ==> row.ipAddress == ip && row.createdAt >= now - 60
    ensures Unusual(userAgent, ip, rows, now) <==> |rows| > BurstLimit
  {
    forall row | row in rows ensures AllHold(RecentFrom(ip, now), row) {
      assert Holds(RecentFrom(ip, now)[0], row) && Holds(RecentFrom(ip, now)[1], row);
    }
    SelectedAll(rows, RecentFrom(ip, now));
  }

  // ---------------------------------------------------------------------------
  // The log entries

  /** PHP's `!$v` on a nullable string. */
  predicate Falsy(v: Option<string>)
  {
    v.None? || IsEmptyText(v.value)
  }

  /** The endpoint of an admin page: `str_contains(strtolower($path), 'admin')`. */
  predicate AdminPath(endpoint: string)
  {
    Contains(LowerStr(endpoint), "admin")
  }

  /** An empty agent, or one that names itself a bot. */
  predicate BotAgent(userAgent: Option<string>)
  {
    Falsy(userAgent) || Contains(LowerStr(userAgent.value), "bot")
  }

  /** The context most security entries carry. */
  function AgentContext(d: LogData): map<string, Json>
  {
    map["request_id" := JStr(d.requestId), "endpoint" := JStr(d.endpoint), "ip" := JStr(d.ipAddress),
        "user_agent" := OptionalText(d.userAgent)]
  }

  function SecurityEntry(severity: Severity, event: Event, context: map<string, Json>): (e: Entry)
    ensures e.channel == Stack && e.event == event
  {
    Entry(Stack, severity, event, context)
  }

  /** The rules of `logSecurityEvents`, in the order they are checked. */
  function SecurityRules(d: LogData): seq<Rule>
  {
    [ Rule(d.statusCode == 401, SecurityEntry(WarningSeverity, FailedAuthentication, AgentContext(d))),
      Rule(d.statusCode == 401 || d.statusCode == 403, SecurityEntry(WarningSeverity, UnauthorizedAccess,
        AgentContext(d)["method" := JStr(d.httpMethod)]["status_code" := JInt(d.statusCode)])),
      Rule(Falsy(d.userId) && AdminPath(d.endpoint), SecurityEntry(WarningSeverity, UnauthenticatedAdmin, AgentContext(d))),
      Rule(BotAgent(d.userAgent), SecurityEntry(InfoSeverity, BotOrEmptyAgent, AgentContext(d))),
      Rule(d.securityAnalysis.sqlInjectionDetected, SecurityEntry(CriticalSeverity, SqlInjection,
        AgentContext(d) - {"user_agent"} + map["request_data" := d.requestData])),
      Rule(d.securityAnalysis.unusualPatterns, SecurityEntry(WarningSeverity, UnusualPattern, AgentContext(d))) ]
  }

  /** `logSecurityEvents`: one entry per rule that fires, in the order the rules are checked. */
  function SecurityEvents(d: LogData): seq<Entry>
  {
    Fire(SecurityRules(d))
  }

  /** Which security entries are written: each rule's entry exactly when its condition holds, all on the main stack. */
  lemma SecurityEventRules(d: LogData)
    ensures var ms := Events(SecurityEvents(d));
            && (FailedAuthentication in ms <==> d.statusCode == 401)
            && (UnauthorizedAccess in ms <==> d.statusCode == 401 || d.statusCode == 403)
            && (UnauthenticatedAdmin in ms <==> Falsy(d.userId) && AdminPath(d.endpoint))
            && (BotOrEmptyAgent in ms <==> BotAgent(d.userAgent))
            && (SqlInjection in ms <==> d.securityAnalysis.sqlInjectionDetected)
            && (UnusualPattern in ms <==> d.securityAnalysis.unusualPatterns)
            && (forall ev :: ev in ms ==> ev in [FailedAuthentication, UnauthorizedAccess, UnauthenticatedAdmin,
                                                 BotOrEmptyAgent, SqlInjection, UnusualPattern])
    ensures forall e :: e in SecurityEvents(d) ==> e.channel == Stack
  {
    var rules := SecurityRules(d);
    FireEvents(rules);
    var events := [FailedAuthentication, UnauthorizedAccess, UnauthenticatedAdmin, BotOrEmptyAgent, SqlInjection, UnusualPattern];
    assert forall i | 0 <= i < |rules| :: rules[i].entry.event == events[i] && rules[i].entry.channel == Stack;
    OnlyRuleFor(rules, 0, FailedAuthentication);
    OnlyRuleFor(rules, 1, UnauthorizedAccess);
    OnlyRuleFor(rules, 2, UnauthenticatedAdmin);
    OnlyRuleFor(rules, 3, BotOrEmptyAgent);
    OnlyRuleFor(rules, 4, SqlInjection);
    OnlyRuleFor(rules, 5, UnusualPattern);
  }

  /** The context both performance entries carry. */
  function PerformanceContext(endpoint: string, responseTime: nat, requestId: string, threshold: string, severity: string): map<string, Json>
  {
    map["endpoint" := JStr(endpoint), "response_time_ms" := JStr(HundredthsToString(responseTime)),
        "request_id" := JStr(requestId), "threshold" := JStr(threshold), "severity" := JStr(severity)]
  }

  /**
   * `logPerformanceIssues`: nothing unless performance logging is on; then a warning on
   * the performance channel above the slow threshold and, independently, a critical entry
   * on the performance channel and another on the main stack above the very slow one.
   */
  function PerformanceEvents(config: Config, responseTime: nat, endpoint: string, requestId: string): (es: seq<Entry>)
    ensures !config.performanceLogging ==> es == []
    ensures config.performanceLogging ==> (SlowResponse in Events(es) <==> responseTime > config.slowThresholdMs * 100)
    ensures config.performanceLogging ==> (VerySlowResponse in Events(es) <==> responseTime > config.verySlowThresholdMs * 100)
    ensures forall ev :: ev in Events(es) ==> ev == SlowResponse || ev == VerySlowResponse
    ensures |es| == if !config.performanceLogging then 0
                    else (if responseTime > config.slowThresholdMs * 100 then 1 else 0) +
                         (if responseTime > config.verySlowThresholdMs * 100 then 2 else 0)
  {
    if !config.performanceLogging then []
    else
      var slow := When(responseTime > config.slowThresholdMs * 100,
        Entry(PerformanceChannel, WarningSeverity, SlowResponse,
          PerformanceContext(endpoint, responseTime, requestId, "slow", "warning")));
      var context := PerformanceContext(endpoint, responseTime, requestId, "very_slow", "critical");
      var verySlow := When(responseTime > config.verySlowThresholdMs * 100,
        Entry(PerformanceChannel, CriticalSeverity, VerySlowResponse, context));
      var verySlowStack := When(responseTime > config.verySlowThresholdMs * 100,
        Entry(Stack, CriticalSeverity, VerySlowResponse, context));
      EventsAppend(slow, verySlow);
      EventsAppend(slow + verySlow, verySlowStack);
      slow + verySlow + verySlowStack
  }

  /** With the default thresholds, a six-second response is both slow and very slow: three entries. */
  lemma VerySlowIsAlsoSlow()
    ensures var es := PerformanceEvents(DefaultConfig.(performanceLogging := true), 600000, "api/tomes", "r");
            |es| == 3 && SlowResponse in Events(es) && VerySlowResponse in Events(es)
  {
  }

  /** The context of the file entry. */
  function FileContext(d: LogData): map<string, Json>
  {
    map["request_id" := JStr(d.requestId), "method" := JStr(d.httpMethod), "endpoint" := JStr(d.endpoint),
        "status" := JInt(d.statusCode), "response_time" := JStr(HundredthsToString(d.responseTime) + "ms"),
        "user_id" := OptionalText(d.userId), "ip" := JStr(d.ipAddress)]
  }

  /**
   * `logToFile`: an `API Error` entry on the main stack, with the exception's details
   * merged in, when there is an exception; otherwise an `API Request` entry on the `api`
   * channel at the derived level.
   */
  function FileEntries(d: LogData, exception: Option<Thrown>): (es: seq<Entry>)
    ensures |es| == 1
    ensures exception.None? ==> es[0] == Entry(ApiChannel, SeverityOf(d.logLevel), ApiRequest, FileContext(d))
    ensures exception.Some? ==>
              && es[0].channel == Stack && es[0].severity == ErrorSeverity && es[0].event == ApiError
              && "exception" in es[0].context && es[0].context["exception"] == JStr(exception.value.message)
  {
    match exception
    case None => [Entry(ApiChannel, SeverityOf(d.logLevel), ApiRequest, FileContext(d))]
    case Some(e) =>
      [Entry(Stack, ErrorSeverity, ApiError,
        FileContext(d) + map["exception" := JStr(e.message), "file" := JStr(e.file),
                             "line" := JInt(e.line), "trace" := JStr(e.trace)])]
  }

  /**
   * The `API Error` entry keeps the whole request context and adds the exception's
   * origin and trace text to it.
   */
  lemma ErrorEntryDetails(d: LogData, e: Thrown)
    ensures var context := FileEntries(d, Some(e))[0].context;
      && context.Keys == FileContext(d).Keys + {"exception", "file", "line", "trace"}
      && context["file"] == JStr(e.file)
      && context["line"] == JInt(e.line)
      && context["trace"] == JStr(e.trace)
      && context - {"exception", "file", "line", "trace"} == FileContext(d)
  {
    var extra := map["exception" := JStr(e.message), "file" := JStr(e.file),
                     "line" := JInt(e.line), "trace" := JStr(e.trace)];
    assert FileEntries(d, Some(e))[0].context == FileContext(d) + extra;
    assert extra.Keys == {"exception", "file", "line", "trace"};
    MergedThenRemoved(FileContext(d), extra);
  }

  /** Merging keys a map does not have and then removing them gives the map back. */
  lemma MergedThenRemoved<K, V>(m: map<K, V>, extra: map<K, V>)
    requires m.Keys !! extra.Keys
    ensures (m + extra) - extra.Keys == m
  {
  }

  /** `buildErrorContext`: origin, at most five trace frames, and the previous message. */
  function ErrorContext(e: Thrown): (ctx: Json)
    ensures && ctx.JObject? && "trace" in ctx.fields && ctx.fields["trace"].JList?
            && |ctx.fields["trace"].items| <= 5 && ctx.fields["trace"].items <= e.frames
            && (|e.frames| >= 5 ==> |ctx.fields["trace"].items| == 5)
  {
    var n := if |e.frames| < 5 then |e.frames| else 5;
    JObject(map["file" := JStr(e.file), "line" := JInt(e.line), "trace" := JList(e.frames[..n]),
                "previous" := OptionalText(e.previous)])
  }

  // ---------------------------------------------------------------------------
  // One call of `logRequest`

  /** `$response?->getStatusCode() ?? 500`. */
  function StatusOf(response: Option<Response>): int
  {
    if response.Some? then response.value.status else 500
  }

  /** `auth()->user()?->type ?? 'anonymous'`. */
  function UserTypeOf(user: Option<User>): string
  {
    if user.Some? && user.value.userType.Some? then user.value.userType.value else "anonymous"
  }

  /** The `$logData` array of one request, given the two heuristic flags. */
  function BuildLogData(requestId: string, request: Request, response: Option<Response>, exception: Option<Thrown>,
                        env: Environment, decode: string -> Option<Json>, analysis: SecurityAnalysis): LogData
  {
    var status := StatusOf(response);
    LogData(
      requestId, request.httpMethod, request.fullUrl, request.path, GetClientIp(request),
      Header(request.headers, "user-agent"),
      if env.user.Some? then Some(env.user.value.id) else None,
      UserTypeOf(env.user),
      status, env.elapsed,
      if response.Some? then Some(|response.value.content|) else None,
      HeadersJson(RedactHeaders(request.headers)),
      RedactInput(request.input),
      ResponseData(response, decode),
      Header(request.headers, "x-cache-hit") == Some("true"),
      DetermineLogLevel(status, env.elapsed, exception.Some?),
      if exception.Some? then Some(exception.value.message) else None,
      if exception.Some? then ErrorContext(exception.value) else JNull,
      env.metadata,
      analysis)
  }

  /** Adding the security analysis to the log data changes that entry alone. */
  lemma AnalysisAdded(requestId: string, request: Request, response: Option<Response>, exception: Option<Thrown>,
                      env: Environment, decode: string -> Option<Json>, before: SecurityAnalysis, after: SecurityAnalysis)
    ensures BuildLogData(requestId, request, response, exception, env, decode, before).(securityAnalysis := after)
            == BuildLogData(requestId, request, response, exception, env, decode, after)
  {
  }

  /** The flags `logRequest` computes, against the rows stored before this request. */
  function AnalysisOf(request: Request, env: Environment, rows: seq<ApiLogRecord>): SecurityAnalysis
    requires env.encodedInput.Encoded?
  {
    SecurityAnalysis(
      Flagged(env.encodedInput.text),
      Unusual(Header(request.headers, "user-agent"), GetClientIp(request), rows, env.now))
  }

  /** `ApiLog::create($logData)`: every column keeps its value from the log data. */
  function StoredRow(d: LogData, now: int): (row: ApiLogRecord)
    ensures Carries(row, d) && row.createdAt == now
  {
    ApiLogRecord(d.requestId, d.httpMethod, d.url, d.endpoint, d.ipAddress, d.userAgent, d.userId, Some(d.userType),
                 d.statusCode, d.responseTime, d.responseSize, d.requestHeaders, d.requestData, d.responseData,
                 d.cacheHit, d.logLevel, d.errorMessage, d.errorContext, d.metadata, now)
  }

  /** The stored row is what `ApiLog::create` makes of the whole `$logData` under the fillable list. */
  lemma StoredRowIsCreated(d: LogData, now: int)
    ensures RequiredColumns <= LogDataKeys * FillableKeys
    ensures StoredRow(d, now) == Insert(d, LogDataKeys, now)
  {
    InsertAllKeepsEveryColumn(d, now);
  }

  /** The row `logToDatabase` adds: the whole `$logData`, unless storing is off or fails. */
  function StoredRows(config: Config, d: LogData, env: Environment): seq<ApiLogRecord>
  {
    if config.logToDatabase && env.databaseError.None? then [StoredRow(d, env.now)] else []
  }

  function DatabaseEntries(config: Config, d: LogData, env: Environment): seq<Entry>
  {
    if config.logToDatabase && env.databaseError.Some? then
      [Entry(Stack, ErrorSeverity, DatabaseLoggingFailed,
        map["error" := JStr(env.databaseError.value), "request_id" := JStr(d.requestId)])]
    else []
  }

  /** `logCriticalErrorImmediate`. */
  function CriticalAlertEntry(d: LogData, request: Request, e: Thrown, env: Environment): Entry
  {
    Entry(Stack, ErrorSeverity, CriticalAlert,
      map["request_id" := JStr(d.requestId), "endpoint" := JStr(request.path), "method" := JStr(request.httpMethod),
          "error" := JStr(e.message), "file" := JStr(e.file), "line" := JInt(e.line), "ip" := JStr(GetClientIp(request)),
          "user_id" := OptionalText(d.userId), "environment" := JStr(env.appEnvironment)])
  }

  /** What `processLogDataImmediate` writes to the log, in order. */
  function ImmediateEntries(config: Config, d: LogData, exception: Option<Thrown>, env: Environment): seq<Entry>
  {
    DatabaseEntries(config, d, env)
    + FileEntries(d, exception)
    + SecurityEvents(d)
    + PerformanceEvents(config, d.responseTime, d.endpoint, d.requestId)
  }

  /** Everything `logRequest` writes to the log when the input could be encoded. */
  function LoggedEntries(config: Config, request: Request, d: LogData, exception: Option<Thrown>, env: Environment): seq<Entry>
  {
    WithAlert(ImmediateEntries(config, d, exception, env), request, d, exception, env)
  }

  /** The entries `before`, then the immediate alert when a thrown exception meets a server error status. */
  function WithAlert(before: seq<Entry>, request: Request, d: LogData, exception: Option<Thrown>, env: Environment): seq<Entry>
  {
    before + AlertEntries(request, d, exception, env)
  }

  /** The immediate alert, written only for a thrown exception with a server error status. */
  function AlertEntries(request: Request, d: LogData, exception: Option<Thrown>, env: Environment): seq<Entry>
  {
    match exception
    case Some(e) => When(d.statusCode >= 500, CriticalAlertEntry(d, request, e, env))
    case None => []
  }

  lemma AlertLast(before: seq<Entry>, request: Request, d: LogData, exception: Option<Thrown>, env: Environment)
    requires CriticalAlert !in Events(before)
    ensures CriticalAlert in Events(WithAlert(before, request, d, exception, env)) <==>
              exception.Some? && d.statusCode >= 500
  {
    match exception
    case Some(e) =>
      LoggedLast(CriticalAlert, before, d.statusCode >= 500, CriticalAlertEntry(d, request, e, env));
    case None =>
      assert WithAlert(before, request, d, exception, env) == before;
  }

  function LoggingFailedEntry(requestId: string, message: string): Entry
  {
    Entry(Stack, ErrorSeverity, LoggingFailed, map["error" := JStr(message), "request_id" := JStr(requestId)])
  }

  class ApiLoggingService {
    const requestId: string
    const config: Config
    const table: Table
    const logger: Logger
    /** The response and exception of every `logRequest` call so far, in order. */
    ghost var logged: seq<(Option<Response>, Option<Thrown>)>

    /** The inbound `X-Request-ID`, or a fresh identifier when the request has none. */
    constructor(current: Request, freshId: string, config: Config, table: Table, logger: Logger)
      ensures requestId == Header(current.headers, "x-request-id").GetOr(freshId)
      ensures this.config == config && this.table == table && this.logger == logger && logged == []
    {
      requestId := Header(current.headers, "x-request-id").GetOr(freshId);
      this.config := config;
      this.table := table;
      this.logger := logger;
      logged := [];
    }

    /** `logToDatabase`: store the row, or log why it could not be stored. */
    method LogToDatabase(d: LogData, env: Environment)
      modifies table, logger
      ensures table.rows == old(table.rows) + StoredRows(config, d, env)
      ensures logger.entries == old(logger.entries) + DatabaseEntries(config, d, env)
    {
      if config.logToDatabase {
        if env.databaseError.None? {
          table.Create(StoredRow(d, env.now));
        } else {
          logger.Write(DatabaseEntries(config, d, env));
        }
      }
    }

    /** `processLogDataImmediate`: the database row, then the file, security and performance entries. */
    method ProcessLogDataImmediate(d: LogData, exception: Option<Thrown>, env: Environment)
      modifies table, logger
      ensures table.rows == old(table.rows) + StoredRows(config, d, env)
      ensures logger.entries == old(logger.entries) + ImmediateEntries(config, d, exception, env)
    {
      ghost var log := logger.entries;
      var file, security := FileEntries(d, exception), SecurityEvents(d);
      var performance := PerformanceEvents(config, d.responseTime, d.endpoint, d.requestId);
      LogToDatabase(d, env);
      logger.Write(file);
      logger.Write(security);
      logger.Write(performance);
      WrittenInTurn(log, DatabaseEntries(config, d, env), file, security, performance);
    }

    /** The `$logData` array of `logRequest`, before the security analysis is added to it. */
    method CollectLogData(request: Request, response: Option<Response>, exception: Option<Thrown>,
                          env: Environment, decode: string -> Option<Json>) returns (d: LogData)
      ensures d == BuildLogData(requestId, request, response, exception, env, decode, SecurityAnalysis(false, false))
    {
      var statusCode := if response.Some? then response.value.status else 500;
      var logLevel := DetermineLogLevel(statusCode, env.elapsed, exception.Some?);
      var headers := SanitizeHeaders(request.headers);
      var input := SanitizeRequestData(request.input);
      d := LogData(
        requestId, request.httpMethod, request.fullUrl, request.path, GetClientIp(request),
        Header(request.headers, "user-agent"),
        if env.user.Some? then Some(env.user.value.id) else None,
        UserTypeOf(env.user),
        statusCode, env.elapsed,
        if response.Some? then Some(|response.value.content|) else None,
        HeadersJson(headers), input, ResponseData(response, decode),
        Header(request.headers, "x-cache-hit") == Some("true"),
        logLevel,
        if exception.Some? then Some(exception.value.message) else None,
        if exception.Some? then ErrorContext(exception.value) else JNull,
        env.metadata,
        SecurityAnalysis(false, false));
    }

    /**
     * The analysed log data is processed at once (the queue is switched off), and a
     * failed request with a server error status raises the immediate alert as well.
     */
    method Record(request: Request, d: LogData, exception: Option<Thrown>, env: Environment)
      modifies table, logger
      ensures table.rows == old(table.rows) + StoredRows(config, d, env)
      ensures logger.entries == old(logger.entries) + LoggedEntries(config, request, d, exception, env)
    {
      ghost var log := logger.entries;
      ProcessLogDataImmediate(d, exception, env);
      AlertIfFailed(request, d, exception, env, log, ImmediateEntries(config, d, exception, env));
    }

    /**
     * `if ($exception && $statusCode >= 500)`: the immediate alert for a failed server error,
     * appended to what `before` wrote after `log`; nothing else is written.
     */
    method AlertIfFailed(request: Request, d: LogData, exception: Option<Thrown>, env: Environment,
                         ghost log: seq<Entry>, ghost before: seq<Entry>)
      requires logger.entries == log + before
      modifies logger
      ensures logger.entries == old(logger.entries) + AlertEntries(request, d, exception, env)
      ensures logger.entries == log + WithAlert(before, request, d, exception, env)
    {
      ghost var written := logger.entries;
      if exception.Some? && d.statusCode >= 500 {
        LogCriticalErrorImmediate(request, d, exception.value, env);
      } else {
        assert logger.entries + [] == logger.entries;
      }
      WrittenAfter(log, before, written, AlertEntries(request, d, exception, env), logger.entries);
    }

    /** `logCriticalErrorImmediate`: one `Critical API Error - Immediate Alert` entry, nothing stored. */
    method LogCriticalErrorImmediate(request: Request, d: LogData, e: Thrown, env: Environment)
      modifies logger
      ensures logger.entries == old(logger.entries) + [CriticalAlertEntry(d, request, e, env)]
    {
      logger.Write([CriticalAlertEntry(d, request, e, env)]);
    }

    /** The `security_analysis` entry, or `None` when encoding the input throws. */
    method AnalyseRequest(request: Request, env: Environment) returns (analysis: Option<SecurityAnalysis>)
      ensures analysis.None? <==> env.encodedInput.EncodeFailed?
      ensures analysis.Some? ==> analysis.value == AnalysisOf(request, env, table.rows)
    {
      var sql := DetectSqlInjection(env.encodedInput);
      if sql.None? {
        return None;
      }
      var unusual := DetectUnusualPatterns(Header(request.headers, "user-agent"), GetClientIp(request), table.rows, env.now);
      return Some(SecurityAnalysis(sql.value, unusual));
    }

    /**
     * `logRequest`: build the log data, analyse the request, store and log it, and raise
     * the immediate alert for a failed request. When encoding the input throws, the
     * `catch (Exception)` writes one entry and nothing is stored.
     */
    method LogRequest(request: Request, response: Option<Response>, exception: Option<Thrown>,
                      env: Environment, decode: string -> Option<Json>)
      modifies this, table, logger
      ensures logged == old(logged) + [(response, exception)]
      ensures env.encodedInput.EncodeFailed? ==>
                && table.rows == old(table.rows)
                && logger.entries == old(logger.entries) + [LoggingFailedEntry(requestId, env.encodedInput.message)]
      ensures env.encodedInput.Encoded? ==>
                var d := BuildLogData(requestId, request, response, exception, env, decode,
                                      AnalysisOf(request, env, old(table.rows)));
                && table.rows == old(table.rows) + StoredRows(config, d, env)
                && logger.entries == old(logger.entries) + LoggedEntries(config, request, d, exception, env)
    {
      logged := logged + [(response, exception)];
      var logData := CollectLogData(request, response, exception, env, decode);

      var analysis := AnalyseRequest(request, env);
      if analysis.None? {
        logger.Write([LoggingFailedEntry(requestId, env.encodedInput.message)]);
        return;
      }
      AnalysisAdded(requestId, request, response, exception, env, decode, SecurityAnalysis(false, false), analysis.value);
      logData := logData.(securityAnalysis := analysis.value);
      Record(request, logData, exception, env);
    }
  }

  // ---------------------------------------------------------------------------
  // What one request leaves behind

  /** The status is the response's, or 500 without one; `cache_hit` is the header being exactly "true". */
  lemma LogDataFields(requestId: string, request: Request, response: Option<Response>, exception: Option<Thrown>,
                      env: Environment, decode: string -> Option<Json>, analysis: SecurityAnalysis)
    ensures var d := BuildLogData(requestId, request, response, exception, env, decode, analysis);
            && (response.None? ==> d.statusCode == 500 && d.responseSize.None? && d.responseData == JNull)
            && (d.cacheHit <==> Header(request.headers, "x-cache-hit") == Some("true"))
            && (exception.Some? ==> d.logLevel == Error)
            && (response.None? ==> d.logLevel == Error)
  {
  }

  /** No sensitive header or set sensitive field reaches the stored row with its value. */
  lemma NoSecretStored(requestId: string, request: Request, response: Option<Response>, exception: Option<Thrown>,
                       env: Environment, decode: string -> Option<Json>, analysis: SecurityAnalysis)
    ensures var row := StoredRow(BuildLogData(requestId, request, response, exception, env, decode, analysis), env.now);
            && row.requestHeaders.JObject?
            && (forall h :: h in request.headers && h in SensitiveHeaders ==>
                  h in row.requestHeaders.fields && row.requestHeaders.fields[h] == StringsJson([RedactionMarker]))
            && (forall f :: IsSet(request.input, f) && f in SensitiveFields ==>
                  row.requestData.JObject? && f in row.requestData.fields
                  && row.requestData.fields[f] == JStr(RedactionMarker))
  {
    var d := BuildLogData(requestId, request, response, exception, env, decode, analysis);
    assert d.requestHeaders == HeadersJson(RedactHeaders(request.headers));
    assert d.requestData == RedactInput(request.input);
  }

  /** The entries written before the immediate alert never include it. */
  lemma NoAlertBeforeLast(config: Config, d: LogData, exception: Option<Thrown>, env: Environment)
    ensures CriticalAlert !in Events(ImmediateEntries(config, d, exception, env))
  {
    var db, file, security := DatabaseEntries(config, d, env), FileEntries(d, exception), SecurityEvents(d);
    var perf := PerformanceEvents(config, d.responseTime, d.endpoint, d.requestId);
    DatabaseNoAlert(config, d, env);
    FileNoAlert(d, exception);
    SecurityNoAlert(d);
    PerformanceNoAlert(config, d);
    AbsentFromAll(CriticalAlert, db, file, security, perf);
  }

  lemma DatabaseNoAlert(config: Config, d: LogData, env: Environment)
    ensures CriticalAlert !in Events(DatabaseEntries(config, d, env))
  {
  }

  lemma PerformanceNoAlert(config: Config, d: LogData)
    ensures CriticalAlert !in Events(PerformanceEvents(config, d.responseTime, d.endpoint, d.requestId))
  {
  }


  lemma FileNoAlert(d: LogData, exception: Option<Thrown>)
    ensures CriticalAlert !in Events(FileEntries(d, exception))
  {
    var file := FileEntries(d, exception);
    assert Events(file) == [file[0].event];
  }

  lemma SecurityNoAlert(d: LogData)
    ensures CriticalAlert !in Events(SecurityEvents(d))
  {
    SecurityEventRules(d);
  }

  /** The immediate alert is written exactly when there is an exception and the status is at least 500. */
  lemma CriticalAlertExactly(config: Config, request: Request, d: LogData, exception: Option<Thrown>, env: Environment)
    ensures CriticalAlert in Events(LoggedEntries(config, request, d, exception, env)) <==>
              exception.Some? && d.statusCode >= 500
  {
    NoAlertBeforeLast(config, d, exception, env);
    AlertLast(ImmediateEntries(config, d, exception, env), request, d, exception, env);
  }
}
