/**
 * `ProcessApiLogJob`: the queued variant of the logging steps. It stores a projection of
 * the log data, writes the file entry, the security entries and at most one performance
 * entry, and on an `Exception` logs the failure and rethrows it so that the queue retries
 * the job, up to three attempts in all.
 */
module LogJob {
  import opened Wrappers
  import opened Text
  import opened JsonValue
  import opened ApiLog
  import opened Logs
  import opened LoggingService

  // ---------------------------------------------------------------------------
  // Retry policy

  /** `$tries`: the number of attempts the queue makes. */
  const Tries: nat := 3

  /** `$timeout`, in seconds. */
  const Timeout: nat := 30

  /** `backoff()`: the seconds to wait before each retry. */
  const Backoff: seq<nat> := [10, 30, 60]

  /**
   * The wait after attempt `attempt` (counted from 1) fails: the backoff entry at that
   * position, or the last entry once the list is exhausted.
   */
  function RetryDelay(backoff: seq<nat>, attempt: nat): (w: nat)
    requires backoff != [] && attempt >= 1
    ensures w in backoff
    ensures attempt <= |backoff| ==> w == backoff[attempt - 1]
  {
    if attempt <= |backoff| then backoff[attempt - 1] else backoff[|backoff| - 1]
  }

  /** The waits between the attempts of a job that fails every time: one before each retry. */
  function RetryDelays(backoff: seq<nat>, tries: nat): (ws: seq<nat>)
    requires backoff != []
    ensures |ws| == if tries == 0 then 0 else tries - 1
    ensures forall k :: 0 <= k < |ws| ==> ws[k] == RetryDelay(backoff, k + 1)
  {
    if tries <= 1 then [] else RetryDelays(backoff, tries - 1) + [RetryDelay(backoff, tries - 1)]
  }

  /** With three attempts only the first two waits are used; the 60-second one never is. */
  lemma {:induction false} ThreeAttemptsWaitTwice()
    ensures RetryDelays(Backoff, Tries) == [10, 30]
    ensures 60 !in RetryDelays(Backoff, Tries)
  {
    var ws := RetryDelays(Backoff, Tries);
    assert |ws| == 2;
    assert ws[0] == RetryDelay(Backoff, 1) == 10;
    assert ws[1] == RetryDelay(Backoff, 2) == 30;
  }

  // ---------------------------------------------------------------------------
  // The stored row

  /** The keys `logToDatabase` passes: the log data without `cache_hit` and `security_analysis`, plus `created_at`. */
  const JobKeys: set<Key> := set k: Key | k != CacheHitKey && k != SecurityAnalysisKey

  /** The row the job stores: every listed column from the log data, and `cache_hit` at its default. */
  function JobRow(d: LogData, now: int): (row: ApiLogRecord)
    ensures !row.cacheHit && row.createdAt == now
  {
    ApiLogRecord(d.requestId, d.httpMethod, d.url, d.endpoint, d.ipAddress, d.userAgent, d.userId, Some(d.userType),
                 d.statusCode, d.responseTime, d.responseSize, d.requestHeaders, d.requestData, d.responseData,
                 false, d.logLevel, d.errorMessage, d.errorContext, d.metadata, now)
  }

  /** The row is what `ApiLog::create` makes of the listed attributes under the fillable list. */
  lemma JobRowIsCreated(d: LogData, now: int)
    ensures RequiredColumns <= JobKeys * FillableKeys
    ensures JobRow(d, now) == Insert(d, JobKeys, now)
  {
    assert CacheHitKey !in JobKeys;
  }

  /** The job stores what the synchronous path stores, except that a cache hit is recorded as a miss. */
  lemma JobRowLosesCacheHit(d: LogData, now: int)
    ensures JobRow(d, now) == StoredRow(d, now).(cacheHit := false)
    ensures d.cacheHit ==> JobRow(d, now) != StoredRow(d, now)
  {
  }

  // ---------------------------------------------------------------------------
  // The log entries

  /**
   * `logToFile`: one `API Request` entry on the `api` channel at the job's level, with the
   * same context as the synchronous path's; an exception adds its message, file and line
   * to the context instead of turning the entry into an `API Error`.
   */
  function JobFileEntry(d: LogData, level: LogLevel, exception: Option<Thrown>): (e: Entry)
    ensures e.channel == ApiChannel && e.severity == SeverityOf(level) && e.event == ApiRequest
    ensures exception.None? ==> e.context.Keys == FileContext(d).Keys
    ensures exception.Some? ==>
              && e.context.Keys == FileContext(d).Keys + {"error", "file", "line"}
              && e.context["error"] == JStr(exception.value.message)
              && e.context["file"] == JStr(exception.value.file)
              && e.context["line"] == JInt(exception.value.line)
    ensures forall k :: k in FileContext(d) ==> k in e.context && e.context[k] == FileContext(d)[k]
  {
    var context := FileContext(d);
    match exception
    case None => Entry(ApiChannel, SeverityOf(level), ApiRequest, context)
    case Some(x) =>
      Entry(ApiChannel, SeverityOf(level), ApiRequest,
        context["error" := JStr(x.message)]["file" := JStr(x.file)]["line" := JInt(x.line)])
  }

  /** The two rules of the job's `logSecurityEvents`, in the order they are checked. */
  function JobSecurityRules(d: LogData): seq<Rule>
  {
    [ Rule(d.statusCode == 401 || d.statusCode == 403, Entry(Stack, WarningSeverity, UnauthorizedAccess,
        AgentContext(d)["method" := JStr(d.httpMethod)]["status_code" := JInt(d.statusCode)])),
      Rule(Falsy(d.userId) && AdminPath(d.endpoint), Entry(Stack, WarningSeverity, UnauthenticatedAdmin, AgentContext(d))) ]
  }

  function JobSecurityEvents(d: LogData): seq<Entry>
  {
    Fire(JobSecurityRules(d))
  }

  /**
   * The job writes one warning for a 401 or 403 and one for an unauthenticated admin path,
   * and nothing else: none of the synchronous path's other security entries.
   */
  lemma JobSecurityEventRules(d: LogData)
    ensures var ms := Events(JobSecurityEvents(d));
            && (UnauthorizedAccess in ms <==> d.statusCode == 401 || d.statusCode == 403)
            && (UnauthenticatedAdmin in ms <==> Falsy(d.userId) && AdminPath(d.endpoint))
            && (forall ev :: ev in ms ==> ev == UnauthorizedAccess || ev == UnauthenticatedAdmin)
  {
    var rules := JobSecurityRules(d);
    FireEvents(rules);
    OnlyRuleFor(rules, 0, UnauthorizedAccess);
    OnlyRuleFor(rules, 1, UnauthenticatedAdmin);
  }

  function JobPerformanceContext(endpoint: string, responseTime: nat, threshold: nat): map<string, Json>
  {
    map["endpoint" := JStr(endpoint), "response_time_ms" := JStr(HundredthsToString(responseTime)),
        "threshold" := JInt(threshold)]
  }

  /**
   * The job's `logPerformanceIssues`: a warning above the very slow threshold, otherwise
   * an info entry above the slow one, otherwise nothing. There is no switch to turn it off.
   */
  function JobPerformanceEntries(config: Config, responseTime: nat, endpoint: string): (es: seq<Entry>)
    ensures |es| <= 1
    ensures JobVerySlowRequest in Events(es) <==> responseTime > config.verySlowThresholdMs * 100
    ensures JobSlowRequest in Events(es) <==>
              responseTime > config.slowThresholdMs * 100 && responseTime <= config.verySlowThresholdMs * 100
    ensures forall ev :: ev in Events(es) ==> ev == JobSlowRequest || ev == JobVerySlowRequest
    ensures forall e :: e in es ==> e.channel == Stack
  {
    if responseTime > config.verySlowThresholdMs * 100 then
      [Entry(Stack, WarningSeverity, JobVerySlowRequest,
        JobPerformanceContext(endpoint, responseTime, config.verySlowThresholdMs))]
    else if responseTime > config.slowThresholdMs * 100 then
      [Entry(Stack, InfoSeverity, JobSlowRequest, JobPerformanceContext(endpoint, responseTime, config.slowThresholdMs))]
    else []
  }

  /** Where the synchronous path writes three performance entries for a six-second response, the job writes one. */
  lemma JobWritesOnePerformanceEntry()
    ensures var config := DefaultConfig.(performanceLogging := true);
            |JobPerformanceEntries(config, 600000, "api/tomes")| == 1 &&
            |PerformanceEvents(config, 600000, "api/tomes", "r")| == 3
  {
    VerySlowIsAlsoSlow();
  }

  /** Everything a successful `handle` writes to the log, in order. */
  function JobEntries(config: Config, d: LogData, level: LogLevel, exception: Option<Thrown>): seq<Entry>
  {
    [JobFileEntry(d, level, exception)] + JobSecurityEvents(d) + JobPerformanceEntries(config, d.responseTime, d.endpoint)
  }

  /** The entry `handle` writes before rethrowing. */
  function JobFailedEntry(d: LogData, message: string, jobId: Option<string>): Entry
  {
    Entry(Stack, ErrorSeverity, JobFailed,
      map["error" := JStr(message), "request_id" := JStr(d.requestId), "job_id" := OptionalText(jobId)])
  }

  /** The entry `failed` writes once the queue gives the job up. */
  function JobFailedPermanentlyEntry(d: LogData, message: string, attempts: nat): Entry
  {
    Entry(Stack, ErrorSeverity, JobFailedPermanently,
      map["request_id" := JStr(d.requestId), "error" := JStr(message), "attempts" := JInt(attempts)])
  }

  /** How one run of `handle` ends: normally, or by rethrowing the `Exception` with this message. */
  datatype JobOutcome = Completed | Rethrown(message: string)

  /**
   * What one attempt meets: the clock, the queue's id for the job, and the message of the
   * exception `ApiLog::create` throws, if it does.
   */
  datatype Attempt = Attempt(now: int, jobId: Option<string>, databaseError: Option<string>)

  class ProcessApiLogJob {
    const logData: LogData
    const logLevel: LogLevel
    const exception: Option<Thrown>
    const table: Table
    const logger: Logger

    constructor(logData: LogData, logLevel: LogLevel, exception: Option<Thrown>, table: Table, logger: Logger)
      ensures this.logData == logData && this.logLevel == logLevel && this.exception == exception
      ensures this.table == table && this.logger == logger
    {
      this.logData := logData;
      this.logLevel := logLevel;
      this.exception := exception;
      this.table := table;
      this.logger := logger;
    }

    /** `logToDatabase`: the projected row, or the exception `ApiLog::create` throws. */
    method LogToDatabase(attempt: Attempt) returns (failure: Option<string>)
      modifies table
      ensures failure == attempt.databaseError
      ensures table.rows == old(table.rows) + (if failure.None? then [JobRow(logData, attempt.now)] else [])
    {
      if attempt.databaseError.Some? {
        return attempt.databaseError;
      }
      table.Create(JobRow(logData, attempt.now));
      return None;
    }

    /**
     * `handle`: database, file, security and performance steps in that order; an exception
     * from the database step skips the rest, is logged with the request id and is rethrown.
     */
    method Handle(config: Config, attempt: Attempt) returns (outcome: JobOutcome)
      modifies table, logger
      ensures outcome.Rethrown? <==> attempt.databaseError.Some?
      ensures outcome.Completed? ==>
                && table.rows == old(table.rows) + [JobRow(logData, attempt.now)]
                && logger.entries == old(logger.entries) + JobEntries(config, logData, logLevel, exception)
      ensures outcome.Rethrown? ==>
                && outcome.message == attempt.databaseError.value
                && table.rows == old(table.rows)
                && logger.entries == old(logger.entries) + [JobFailedEntry(logData, outcome.message, attempt.jobId)]
    {
      var failure := LogToDatabase(attempt);
      if failure.Some? {
        logger.Write([JobFailedEntry(logData, failure.value, attempt.jobId)]);
        return Rethrown(failure.value);
      }
      ghost var log := logger.entries;
      var file := [JobFileEntry(logData, logLevel, exception)];
      var security := JobSecurityEvents(logData);
      var performance := JobPerformanceEntries(config, logData.responseTime, logData.endpoint);
      logger.Write(file);
      logger.Write(security);
      logger.Write(performance);
      assert log + file + security + performance == log + (file + security + performance);
      return Completed;
    }

    /** `failed`: the permanent failure, with the request id, the message and the attempt count. */
    method Failed(thrown: Thrown, attempts: nat)
      modifies logger
      ensures logger.entries == old(logger.entries) + [JobFailedPermanentlyEntry(logData, thrown.message, attempts)]
    {
      logger.Write([JobFailedPermanentlyEntry(logData, thrown.message, attempts)]);
    }
  }

  /** A successful run writes the file entry first, and no failure report. */
  lemma CompletedRunNoFailure(config: Config, d: LogData, level: LogLevel, exception: Option<Thrown>)
    ensures var es := JobEntries(config, d, level, exception);
            es[0] == JobFileEntry(d, level, exception) && JobFailed !in Events(es) && JobFailedPermanently !in Events(es)
  {
    var file := [JobFileEntry(d, level, exception)];
    var security := JobSecurityEvents(d);
    var performance := JobPerformanceEntries(config, d.responseTime, d.endpoint);
    JobSecurityEventRules(d);
    assert Events(file) == [ApiRequest];
    assert JobFailed !in Events(performance) && JobFailedPermanently !in Events(performance);
    EventsAppend(file, security);
    EventsAppend(file + security, performance);
  }
}
