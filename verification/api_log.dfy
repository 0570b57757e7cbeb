/**
 * The `api_logs` table and its Eloquent model `ApiLog`: the per-request log data the
 * logging service builds, the row that mass assignment stores from it (the `$fillable`
 * whitelist, the column defaults, the automatic `created_at`), the `$casts` read-back of
 * `cache_hit`, and the `where` clauses and query scopes the services filter rows with.
 */
module ApiLog {
  import opened Wrappers
  import opened JsonValue
  import opened Text

  /** The `log_level` values the logging service derives. */
  datatype LogLevel = Info | Warning | Error

  /** `security_analysis`: the two heuristic flags, always both computed. */
  datatype SecurityAnalysis = SecurityAnalysis(sqlInjectionDetected: bool, unusualPatterns: bool)

  /**
   * The `$logData` array of one request. Response times are in hundredths of a
   * millisecond (the column is `decimal(8,2)`); the JSON columns are kept as `Json`.
   */
  datatype LogData = LogData(
    requestId: string,
    httpMethod: string,
    url: string,
    endpoint: string,
    ipAddress: string,
    userAgent: Option<string>,
    userId: Option<string>,
    userType: string,
    statusCode: int,
    responseTime: nat,
    responseSize: Option<nat>,
    requestHeaders: Json,
    requestData: Json,
    responseData: Json,
    cacheHit: bool,
    logLevel: LogLevel,
    errorMessage: Option<string>,
    errorContext: Json,
    metadata: Json,
    securityAnalysis: SecurityAnalysis)

  /** One stored `api_logs` row, as the model reads it back. */
  datatype ApiLogRecord = ApiLogRecord(
    requestId: string,
    httpMethod: string,
    url: string,
    endpoint: string,
    ipAddress: string,
    userAgent: Option<string>,
    userId: Option<string>,
    userType: Option<string>,
    statusCode: int,
    responseTime: nat,
    responseSize: Option<nat>,
    requestHeaders: Json,
    requestData: Json,
    responseData: Json,
    cacheHit: bool,
    logLevel: LogLevel,
    errorMessage: Option<string>,
    errorContext: Json,
    metadata: Json,
    createdAt: int)

  /** The attribute keys that reach `ApiLog::create`, with the names PHP gives them. */
  datatype Key =
    | RequestIdKey | MethodKey | UrlKey | EndpointKey | IpAddressKey | UserAgentKey
    | UserIdKey | UserTypeKey | StatusCodeKey | ResponseTimeKey | ResponseSizeKey
    | RequestHeadersKey | RequestDataKey | ResponseDataKey | CacheHitKey | LogLevelKey
    | ErrorMessageKey | ErrorContextKey | MetadataKey | SecurityAnalysisKey | CreatedAtKey
  {
    function Name(): string
    {
      match this
      case RequestIdKey => "request_id"
      case MethodKey => "method"
      case UrlKey => "url"
      case EndpointKey => "endpoint"
      case IpAddressKey => "ip_address"
      case UserAgentKey => "user_agent"
      case UserIdKey => "user_id"
      case UserTypeKey => "user_type"
      case StatusCodeKey => "status_code"
      case ResponseTimeKey => "response_time_ms"
      case ResponseSizeKey => "response_size"
      case RequestHeadersKey => "request_headers"
      case RequestDataKey => "request_data"
      case ResponseDataKey => "response_data"
      case CacheHitKey => "cache_hit"
      case LogLevelKey => "log_level"
      case ErrorMessageKey => "error_message"
      case ErrorContextKey => "error_context"
      case MetadataKey => "metadata"
      case SecurityAnalysisKey => "security_analysis"
      case CreatedAtKey => "created_at"
    }
  }

  /** The keys of `$logData` as the logging service builds it: all but `created_at`. */
  const LogDataKeys: set<Key> := set k: Key | k != CreatedAtKey

  /** `ApiLog::$fillable`: every key except `security_analysis` and `created_at`. */
  const FillableKeys: set<Key> := set k: Key | k != SecurityAnalysisKey && k != CreatedAtKey

  /** The NOT NULL columns without a default: an insert that lacks one fails. */
  const RequiredColumns: set<Key> :=
    {RequestIdKey, MethodKey, UrlKey, EndpointKey, IpAddressKey, StatusCodeKey, ResponseTimeKey}

  /** Mass assignment: the attributes `ApiLog::create` keeps, silently dropping the rest. */
  function Fillable<V>(attributes: map<Key, V>): (kept: map<Key, V>)
    ensures kept.Keys == attributes.Keys * FillableKeys
    ensures forall k :: k in kept ==> kept[k] == attributes[k]
  {
    map k | k in attributes && k in FillableKeys :: attributes[k]
  }

  lemma WhitelistDropsAnalysisAndTimestamp<V>(attributes: map<Key, V>)
    ensures SecurityAnalysisKey !in Fillable(attributes)
    ensures CreatedAtKey !in Fillable(attributes)
    ensures Fillable(attributes).Keys == attributes.Keys - {SecurityAnalysisKey, CreatedAtKey}
  {
  }

  /** A column's value: the attribute when it was assigned, the column default otherwise. */
  function Assigned<T>(k: Key, given: set<Key>, v: T, default: T): T
  {
    if k in given then v else default
  }

  /**
   * `ApiLog::create($attributes)` at time `now` for attributes taken from `d` under the
   * keys `passed`: only fillable keys are assigned, unassigned nullable columns are NULL,
   * `cache_hit` defaults to false and `log_level` to info, and the model's timestamps set
   * `created_at` to `now` whatever was passed.
   */
  function Insert(d: LogData, passed: set<Key>, now: int): (row: ApiLogRecord)
    requires RequiredColumns <= passed * FillableKeys
    ensures row.createdAt == now
    ensures row.requestId == d.requestId && row.statusCode == d.statusCode
    ensures row.cacheHit <==> CacheHitKey in passed && d.cacheHit
    ensures row.userType.Some? <==> UserTypeKey in passed
  {
    var a := passed * FillableKeys;
    ApiLogRecord(
      d.requestId, d.httpMethod, d.url, d.endpoint, d.ipAddress,
      Assigned(UserAgentKey, a, d.userAgent, None),
      Assigned(UserIdKey, a, d.userId, None),
      Assigned(UserTypeKey, a, Some(d.userType), None),
      d.statusCode, d.responseTime,
      Assigned(ResponseSizeKey, a, d.responseSize, None),
      Assigned(RequestHeadersKey, a, d.requestHeaders, JNull),
      Assigned(RequestDataKey, a, d.requestData, JNull),
      Assigned(ResponseDataKey, a, d.responseData, JNull),
      Assigned(CacheHitKey, a, d.cacheHit, false),
      Assigned(LogLevelKey, a, d.logLevel, Info),
      Assigned(ErrorMessageKey, a, d.errorMessage, None),
      Assigned(ErrorContextKey, a, d.errorContext, JNull),
      Assigned(MetadataKey, a, d.metadata, JNull),
      now)
  }

  /** Every column of `row` holds what `d` carried. */
  ghost predicate Carries(row: ApiLogRecord, d: LogData)
  {
    && row.requestId == d.requestId && row.httpMethod == d.httpMethod && row.url == d.url
    && row.endpoint == d.endpoint && row.ipAddress == d.ipAddress
    && row.userAgent == d.userAgent && row.userId == d.userId && row.userType == Some(d.userType)
    && row.statusCode == d.statusCode && row.responseTime == d.responseTime
    && row.responseSize == d.responseSize && row.requestHeaders == d.requestHeaders
    && row.requestData == d.requestData && row.responseData == d.responseData
    && row.cacheHit == d.cacheHit && row.logLevel == d.logLevel
    && row.errorMessage == d.errorMessage && row.errorContext == d.errorContext
    && row.metadata == d.metadata
  }

  /** Storing the whole `$logData` keeps every column; only `security_analysis` is lost. */
  lemma InsertAllKeepsEveryColumn(d: LogData, now: int)
    ensures RequiredColumns <= LogDataKeys * FillableKeys
    ensures Carries(Insert(d, LogDataKeys, now), d)
  {
  }

  // ---------------------------------------------------------------------------
  // `$casts`: how `cache_hit` comes back from each database driver

  /** The drivers the application runs on, and what each hands back for a boolean column. */
  datatype Driver = MySql | Sqlite | Postgres
  datatype StoredBool = TinyInt(i: int) | Text(t: string) | Boolean(b: bool)

  function StoreBool(b: bool, driver: Driver): StoredBool
  {
    match driver
    case MySql => TinyInt(if b then 1 else 0)
    case Sqlite => Text(if b then "1" else "0")
    case Postgres => Boolean(b)
  }

  /** The `boolean` cast: PHP's `(bool)` of the raw value. */
  function CastBoolean(raw: StoredBool): bool
  {
    match raw
    case TinyInt(i) => i != 0
    case Text(t) => !IsEmptyText(t)
    case Boolean(b) => b
  }

  lemma CacheHitReadsBack(b: bool, driver: Driver)
    ensures CastBoolean(StoreBool(b, driver)) == b
  {
  }

  // ---------------------------------------------------------------------------
  // `where` clauses on the table, and the model's query scopes

  datatype Filter =
    | CreatedAtFrom(since: int)            // where('created_at', '>=', since)
    | ResponseTimeOver(limit: nat)         // where('response_time_ms', '>', limit), hundredths
    | StatusIs(code: int)                  // where('status_code', code)
    | StatusFrom(code: int)                // where('status_code', '>=', code)
    | CacheHitIs(hit: bool)                // where('cache_hit', hit)
    | UserAgentLike(fragment: string)      // where('user_agent', 'like', "%fragment%")
    | EndpointLike(fragment: string)       // where('endpoint', 'like', "%fragment%")
    | EndpointIs(endpoint: string)         // where('endpoint', endpoint)
    | IpIs(ip: string)                     // where('ip_address', ip)
    | UserIs(user: string)                 // where('user_id', user)
    | UserIsNull                           // where('user_id', null), i.e. whereNull
    | UserNotNull                          // whereNotNull('user_id')

  /**
   * Whether a row satisfies a clause. `LIKE` compares ASCII letters case-insensitively
   * (SQLite's default, MySQL's default collation) and is never true of NULL.
   */
  predicate Holds(f: Filter, row: ApiLogRecord)
  {
    match f
    case CreatedAtFrom(since) => row.createdAt >= since
    case ResponseTimeOver(limit) => row.responseTime > limit
    case StatusIs(code) => row.statusCode == code
    case StatusFrom(code) => row.statusCode >= code
    case CacheHitIs(hit) => row.cacheHit == hit
    case UserAgentLike(fragment) =>
      row.userAgent.Some? && ContainsIgnoringCase(row.userAgent.value, fragment)
    case EndpointLike(fragment) => ContainsIgnoringCase(row.endpoint, fragment)
    case EndpointIs(endpoint) => row.endpoint == endpoint
    case IpIs(ip) => row.ipAddress == ip
    case UserIs(user) => row.userId == Some(user)
    case UserIsNull => row.userId.None?
    case UserNotNull => row.userId.Some?
  }

  /** `scopeErrors`: the failed requests. */
  function ScopeErrors(): (f: Filter)
    ensures forall row :: Holds(f, row) <==> row.statusCode >= 400
  {
    StatusFrom(400)
  }

  /** `scopeSlowRequests($threshold = 1000)`, the threshold in whole milliseconds. */
  function ScopeSlowRequests(thresholdMs: nat := 1000): (f: Filter)
    ensures forall row :: Holds(f, row) <==> row.responseTime > thresholdMs * 100
  {
    ResponseTimeOver(thresholdMs * 100)
  }

  function ScopeByEndpoint(endpoint: string): (f: Filter)
    ensures forall row :: Holds(f, row) <==> row.endpoint == endpoint
  {
    EndpointIs(endpoint)
  }

  /** `scopeByUser`: Eloquent turns `where('user_id', null)` into `whereNull`. */
  function ScopeByUser(user: Option<string>): (f: Filter)
    ensures forall row :: Holds(f, row) <==> row.userId == user
  {
    match user
    case Some(u) => UserIs(u)
    case None => UserIsNull
  }

  function ScopeByIp(ip: string): (f: Filter)
    ensures forall row :: Holds(f, row) <==> row.ipAddress == ip
  {
    IpIs(ip)
  }

  /** `scopeRecent($hours = 24)`: rows created at or after `now - hours`, times in seconds. */
  function ScopeRecent(now: int, hours: nat := 24): (f: Filter)
    ensures forall row :: Holds(f, row) <==> row.createdAt >= now - hours * 3600
  {
    CreatedAtFrom(now - hours * 3600)
  }
}
