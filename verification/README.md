# TomeVault API logging and analytics, in Dafny

TomeVault is a Laravel service for cataloguing magical tomes. Most of it is CRUD glue around
Eloquent models. The part with real logic is the pipeline that records every API request
and the analytics built on those records. This project models that pipeline, plus the smaller
validators and serialisers around the tome endpoints:

- **`ApiLoggingService`** (`logging_service.dfy`, with `sql_patterns.dfy` and `logs.dfy`). For one
  request, the service:
  - derives the log level and picks the client IP;
  - redacts sensitive headers and input fields, and keeps a bounded preview of the response;
  - runs the SQL-injection patterns and the bot-agent/rate-burst heuristic;
  - stores the row and writes the file, security and performance log entries;
  - raises the immediate alert for failed server errors;
  - swallows any `Exception` raised while logging.

  The service is a class holding the request id, the `api_logs` table and the log. The log
  is the sequence of entries written so far; each entry is tagged with its channel,
  severity, event and context.
- **`ApiLoggingMiddleware`** (`middleware.dfy`). It tags the request with the id, runs the rest
  of the pipeline, and logs the request with its response or with the error. It then returns
  the tagged response or rethrows the error. With the corrected response preview (see
  "Findings") it logs exactly once on either path.
- **`ProcessApiLogJob`** (`log_job.dfy`). This is the queued variant:
  - the field projection it stores;
  - its own security and mutually exclusive performance rules;
  - its rethrow-to-retry `handle`, its `failed` hook and its retry constants.
- **`ApiLog`** (`api_log.dfy`). It covers the record, the mass-assignment whitelist, the
  boolean cast and the query scopes.
- **`ApiLogSummaryService`** (`summary.dfy`, over `query.dfy`, `grouping.dfy` and `sorting.dfy`).
  Its query builder is a class whose `where` appends a clause in place. Because of this, the
  clauses of one helper accumulate exactly as they do on an Eloquent builder. The figures
  modelled are the cache-hit rate, the nearest-rank percentiles, the endpoint and
  slowest-endpoint lists, the suspicious IPs, the bot counts, the top cities and the
  geographic summary.
- **`IpGeolocationService`** (`geolocation.dfy`). It covers:
  - the local-address short-circuit and the 24-hour cache map;
  - the outcomes of the provider's response;
  - the country tally, the hosting-ISP test, the capped risk score and the enrichment of
    suspicious IPs.
- **`StoreTomeRequest`** (`store_tome_request.dfy`). It resolves "smart ids": a UUID-shaped
  value is looked up by id, and anything else by case-insensitive name.
- **`ApiResponses`** (`api_responses.dfy`). It builds the `data`/`meta`/`message` envelope and
  moves record timestamps into `meta.timestamps`.
- **`TomeService`** (`tome_service.dfy`). It implements the index's pagination threshold and
  the length-aware page.

Units and representations:

- Times are integer seconds.
- Response times are hundredths of a millisecond, matching the `decimal(8,2)` column.
- Percentages are hundredths of a percent, rounded half up as PHP's `round(…, 2)` rounds
  non-negative values.
- `string` stands for PHP's byte string: lengths, `strlen` and `substr` count its elements as
  bytes, and no character encoding is modelled.
- Everything the code takes from outside is a parameter of the model: the clock, the
  elapsed time, the authenticated user, `json_encode`/`json_decode`, the geolocation
  provider, `filter_var`'s public-address test, and the outcome of `ApiLog::create`.

A few behaviours of the code are easy to miss, and the model states each one as a lemma:

- The rate-burst rule counts the rows stored *before* the current one and needs more than 60
  (`LoggingService.BurstThreshold`). The 62nd request in a minute is therefore the first one
  flagged.
- The `update\s+.*set` pattern also flags ordinary prose (`SqlPatterns.ProseIsFlagged`).
- Only top-level input fields are redacted (`LoggingService.NestedSecretKept`).
- `X-Forwarded-For` is taken whole, as the client IP.
- The service's performance rules are not exclusive. A very slow request writes the slow
  warning and two critical entries (`LoggingService.VerySlowIsAlsoSlow`).
- The job drops `cache_hit` from what it stores (`LogJob.JobRowLosesCacheHit`).
- With a backoff of three delays and three tries, the 60-second delay is never used
  (`LogJob.ThreeAttemptsWaitTwice`).
- An extra `meta` entry named `status` replaces the status code (`ApiResponses.BuildMeta`).

## Model

| member | source | states |
|---|---|---|
| Text.Lower | app/Services/ApiLoggingService.php:226 | `strtolower` on one character: ASCII capitals move to lower case, every other character is kept |
| Text.LowerStr | app/Services/ApiLoggingService.php:226 | `strtolower` on a string: same length, each character lowered |
| Text.TrimStart | app/Http/Requests/StoreTomeRequest.php:78 | the leading whitespace `trim` removes is exactly the maximal prefix of trimmed characters |
| Text.TrimEnd | app/Http/Requests/StoreTomeRequest.php:78 | the trailing whitespace `trim` removes is exactly the maximal suffix of trimmed characters |
| Text.Trim | app/Http/Requests/StoreTomeRequest.php:73-78 | the result is a contiguous cut of the input with no trimmed character at either end |
| Text.Without | app/Services/IpGeolocationService.php:154 | `str_replace('%', '', …)`: no `%` remains and every other character is kept |
| Text.NatToString | app/Services/TomeService.php:33-34 | the page number in a URL is non-empty decimal digits with no leading zero |
| Text.NatToStringRoundTrip | app/Services/TomeService.php:33-34 | reading back the digits of a page number gives the number |
| Text.LeadingDigits | app/Services/IpGeolocationService.php:154 | the `(float)` cast reads the maximal run of leading digits |
| Text.LeadingDigitsOfConcat | app/Services/IpGeolocationService.php:154 | a run of digits followed by more text reads as that run plus what follows |
| Text.HundredthsExceed | app/Services/IpGeolocationService.php:155-159 | a rate written with two decimals exceeds a whole threshold exactly when its hundredths exceed 100 times it |
| Grouping.MembersWith | app/Services/ApiLogSummaryService.php:62 | the members of one `groupBy` group are exactly the rows with that key |
| Grouping.Deduplicated | app/Services/ApiLogSummaryService.php:320 | `distinct` values: the same values, each once |
| Grouping.GroupBy | app/Services/ApiLogSummaryService.php:56-62 | one group per distinct key, keys distinct, each group non-empty and holding exactly its rows, every row in some group |
| Grouping.EntryIndex | app/Services/ApiLogSummaryService.php:329 | `isset($cities[$key])`: the position of the entry with that key, or none exists |
| Grouping.Bump | app/Services/ApiLogSummaryService.php:329-342 | adding requests to a keyed entry (creating it at zero first) keeps keys distinct and adds exactly that key |
| Grouping.BumpTotals | app/Services/IpGeolocationService.php:45-55 | one bump adds its count to the request total and one to the IP total |
| Grouping.ListedMirrors | app/Services/ApiLogSummaryService.php:349 | `array_values` of the dictionary in insertion order is the tally it mirrors |
| Grouping.ExistingIndex | app/Services/ApiLogSummaryService.php:329 | a key already in the dictionary sits at the same place in the mirrored tally |
| Grouping.BumpExistingMirrors | app/Services/ApiLogSummaryService.php:341-342 | updating an existing entry in place keeps the dictionary a mirror of the bumped tally |
| Grouping.BumpAppends | app/Services/ApiLogSummaryService.php:329-337 | a new key is appended with one IP and its requests |
| Grouping.MirrorsAppend | app/Services/ApiLogSummaryService.php:329-337 | inserting a new key at the end keeps the dictionary a mirror |
| Grouping.BumpNewMirrors | app/Services/ApiLogSummaryService.php:329-342 | creating the zero entry and then bumping it mirrors the bumped tally |
| Sorting.Insert | app/Services/ApiLogSummaryService.php:347 | inserting into a non-increasing list keeps it non-increasing and adds exactly the element |
| Sorting.SortDesc | app/Services/ApiLogSummaryService.php:347 | `uasort` by descending count: a permutation in non-increasing order |
| Sorting.Take | app/Services/ApiLogSummaryService.php:349 | `array_slice(…, 0, n)`: the first at most n elements |
| Sorting.TakeKeepsOrder | app/Services/ApiLogSummaryService.php:349 | a prefix of a non-increasing list is non-increasing |
| Sorting.TakenFrom | app/Services/ApiLogSummaryService.php:347-349 | every entry of the sorted top-n came from the input |
| Sorting.TopN | app/Services/ApiLogSummaryService.php:63-64 | `orderByDesc(...)->limit(n)`: min(n, all) elements, drawn from the input, and nothing left out ranks above anything kept |
| Sorting.SumByAppend | app/Services/IpGeolocationService.php:54-55 | totals over two lists add up |
| Sorting.SumByInsert | app/Services/IpGeolocationService.php:59 | inserting adds the element's value to the total |
| Sorting.SumBySort | app/Services/IpGeolocationService.php:59-61 | sorting keeps every total |
| Sorting.SortAsc | app/Services/ApiLogSummaryService.php:205 | `sort()->values()`: a permutation in ascending order |
| Query.Selected | app/Services/ApiLogSummaryService.php:20 | the rows a builder selects are exactly the rows meeting all of its clauses, in table order |
| Query.SelectedStep | app/Services/ApiLogSummaryService.php:20 | selecting from one more row adds that row exactly when it meets the clauses |
| Query.ValuesInStep | app/Services/ApiLogSummaryService.php:44-45 | the distinct values of one more row add that row's value when it has one |
| Query.IpsOf | app/Services/ApiLogSummaryService.php:320 | `pluck('ip_address')`: the IPs of the rows, in order |
| Query.ResponseTimesOf | app/Services/ApiLogSummaryService.php:205 | `pluck('response_time_ms')`: the times of the rows, in order |
| Query.Builder.constructor | app/Services/ApiLogSummaryService.php:20 | a builder over the rows with the given clauses and no `distinct` |
| Query.Builder.Clone | app/Services/ApiLogSummaryService.php:40 | `clone $query`: a fresh builder with the same clauses |
| Query.Builder.Where | app/Services/ApiLogSummaryService.php:81-83 | `where` appends its clause to this builder in place and keeps `distinct` |
| Query.Builder.Distinct | app/Services/ApiLogSummaryService.php:44 | `distinct($column)` sets the distinct column in place and keeps the clauses |
| Query.Builder.Count | app/Services/ApiLogSummaryService.php:43-45 | `count()` is the number of selected rows, or of their distinct non-null values |
| Query.Builder.Selection | app/Services/ApiLogSummaryService.php:320 | the selected rows are exactly the rows meeting all clauses |
| Query.Builder.DistinctIps | app/Services/ApiLogSummaryService.php:320 | `distinct('ip_address')->pluck(...)`: each selected IP exactly once |
| Query.SelectedShrinks | app/Services/ApiLogSummaryService.php:81-83 | more clauses select no more rows |
| Query.Narrowing | app/Services/ApiLogSummaryService.php:81-83 | a later count on the same builder never exceeds an earlier one |
| Query.NothingSelected | app/Services/ApiLogSummaryService.php:104-105 | clauses no row meets select nothing |
| Query.ConflictingIps | app/Services/ApiLogSummaryService.php:340 | two different `where('ip_address', …)` clauses select nothing and count 0 |
| Query.ConflictingStatuses | app/Services/ApiLogSummaryService.php:104-105 | two different `where('status_code', …)` clauses select nothing and count 0 |
| ApiLog.Fillable | app/Models/ApiLog.php:18-38 | mass assignment keeps exactly the given keys that are fillable, with their values |
| ApiLog.WhitelistDropsAnalysisAndTimestamp | app/Models/ApiLog.php:18-38 | `security_analysis` and `created_at` are silently dropped, and nothing else is |
| ApiLog.Insert | app/Models/ApiLog.php:18-48 | with the required columns passed: the created row has the insert time, the request id and status; `cache_hit` is true iff passed and true; a user type is present iff passed |
| ApiLog.InsertAllKeepsEveryColumn | app/Models/ApiLog.php:18-38 | creating from the whole log data keeps every fillable column's value |
| ApiLog.CacheHitReadsBack | app/Models/ApiLog.php:46 | the `boolean` cast reads back the stored flag on each database driver |
| ApiLog.ScopeErrors | app/Models/ApiLog.php:56-59 | keeps exactly the rows with status at least 400 |
| ApiLog.ScopeSlowRequests | app/Models/ApiLog.php:61-64 | keeps exactly the rows strictly slower than the threshold, 1000 ms by default |
| ApiLog.ScopeByEndpoint | app/Models/ApiLog.php:66-69 | keeps exactly the rows of that endpoint |
| ApiLog.ScopeByUser | app/Models/ApiLog.php:71-74 | keeps exactly the rows of that user |
| ApiLog.ScopeByIp | app/Models/ApiLog.php:76-79 | keeps exactly the rows from that IP |
| ApiLog.ScopeRecent | app/Models/ApiLog.php:81-84 | keeps exactly the rows created within the last `hours`, 24 by default |
| Logs.SeverityOf | app/Services/ApiLoggingService.php:191 | a derived log level never writes at critical severity |
| Logs.EventsAppend | app/Services/ApiLoggingService.php:107-120 | the events of consecutive writes are the events of each, in order |
| Logs.EventsMember | app/Services/ApiLoggingService.php:196-265 | a written entry's event is among the events written |
| Logs.When | app/Services/ApiLoggingService.php:204-211 | a guarded `Log::` call writes its event exactly when its condition holds |
| Logs.FireEvents | app/Services/ApiLoggingService.php:196-265 | a sequence of guarded calls writes an event exactly when some call for it fires, and nothing else |
| Logs.OnlyRuleFor | app/Services/ApiLoggingService.php:196-265 | an event that only one rule writes appears exactly when that rule fires |
| Logs.AbsentFromAll | app/Services/ApiLoggingService.php:107-120 | an event none of four steps writes is absent from their sequence |
| Logs.LoggedLast | app/Services/ApiLoggingService.php:69-71 | a final guarded call adds its event exactly when it fires |
| Logs.Logger.Write | app/Services/ApiLoggingService.php:186 | writing appends the entries to the log, in order |
| Logs.Table.Create | app/Services/ApiLoggingService.php:145 | `ApiLog::create` appends one row |
| SqlPatterns.PairMatches | app/Services/ApiLoggingService.php:402-409 | a pattern's two keywords, in any case, around an accepted gap make the text match |
| SqlPatterns.PaddingKeepsMatch | app/Services/ApiLoggingService.php:414 | `preg_match` finds a match anywhere: surrounding text keeps it |
| SqlPatterns.NoHeadNoMatch | app/Services/ApiLoggingService.php:402-409 | text without a pattern's first keyword never matches it |
| SqlPatterns.NoKeywordNotFlagged | app/Services/ApiLoggingService.php:400-420 | text with none of the six first keywords is never flagged |
| SqlPatterns.ProseIsFlagged | app/Services/ApiLoggingService.php:407 | "Please update your settings" is flagged by `update\s+.*set` |
| SqlPatterns.UpperCaseIsFlagged | app/Services/ApiLoggingService.php:403 | the `i` flag: upper-case `UNION SELECT` is flagged |
| LoggingService.DetermineLogLevel | app/Services/ApiLoggingService.php:307-316 | error iff an exception or status at least 500; warning iff neither but status at least 400 or over 5000 ms; info otherwise |
| LoggingService.LevelMonotone | app/Services/ApiLoggingService.php:307-316 | a higher status, a slower time or an exception never lowers the level |
| LoggingService.GetClientIp | app/Services/ApiLoggingService.php:318-323 | `X-Forwarded-For`, else `X-Real-IP`, else the peer address |
| LoggingService.RedactHeaders | app/Services/ApiLoggingService.php:325-336 | same header names; the four sensitive ones present become `['[REDACTED]']`, every other is unchanged |
| LoggingService.SanitizeHeaders | app/Services/ApiLoggingService.php:325-336 | the loop over the sensitive names computes the redaction |
| LoggingService.RedactHeadersIdempotent | app/Services/ApiLoggingService.php:325-336 | redacting twice is redacting once |
| LoggingService.RedactInput | app/Services/ApiLoggingService.php:338-353 | null iff the input is empty; otherwise the same keys, each set sensitive field `'[REDACTED]'`, every other field unchanged |
| LoggingService.SanitizeRequestData | app/Services/ApiLoggingService.php:338-353 | the loop over the sensitive fields computes the redaction |
| LoggingService.RedactInputIdempotent | app/Services/ApiLoggingService.php:338-353 | redacting twice is redacting once |
| LoggingService.NestedSecretKept | app/Services/ApiLoggingService.php:346-350 | a password nested one level down is stored as given |
| LoggingService.ResponseDataAsWritten | app/Services/ApiLoggingService.php:358-374 | no response gives null; a short non-JSON body throws `JsonException`; a short scalar JSON body throws `TypeError` |
| LoggingService.ResponseData | app/Services/ApiLoggingService.php:358-374 | null iff no response; otherwise an array: the 1000-character preview of a long body, else the decoded array or the raw body |
| LoggingService.ResponseDataAgrees | app/Services/ApiLoggingService.php:358-374 | wherever the code as written returns a value, the corrected function returns the same |
| LoggingService.PreviewIsPrefix | app/Services/ApiLoggingService.php:367-369 | a long body's preview is exactly its first 1000 characters, flagged truncated |
| LoggingService.EmptyBodyThrows | app/Services/ApiLoggingService.php:372-373 | an empty body throws as written, and is kept raw by the correction |
| LoggingService.ScalarBodyThrows | app/Services/ApiLoggingService.php:358-373 | the body `true` throws a `TypeError` as written, and is kept raw by the correction |
| LoggingService.DetectSqlInjection | app/Services/ApiLoggingService.php:400-420 | a failed encoding throws; otherwise flagged iff one of the six patterns matches the encoded input |
| LoggingService.DetectUnusualPatterns | app/Services/ApiLoggingService.php:422-440 | true iff the agent contains a suspicious fragment, or more than 60 stored rows from the IP fall within the last minute |
| LoggingService.BurstThreshold | app/Services/ApiLoggingService.php:435-439 | with an ordinary agent and only that IP's recent rows stored, unusual iff more than 60 of them |
| LoggingService.SecurityEventRules | app/Services/ApiLoggingService.php:196-265 | failed-auth iff 401; unauthorized iff 401 or 403; admin attempt iff no user and `admin` in the path; bot iff empty or `bot` agent; one event per true flag; nothing else, all on the stack |
| LoggingService.PerformanceEvents | app/Services/ApiLoggingService.php:267-300 | nothing when disabled; slow iff over the slow threshold; very slow iff over the other; one entry for slow and two for very slow |
| LoggingService.VerySlowIsAlsoSlow | app/Services/ApiLoggingService.php:274-299 | a 6000 ms request writes three performance entries, slow and very slow |
| LoggingService.FileEntries | app/Services/ApiLoggingService.php:165-194 | one entry: `API Request` on the `api` channel at the derived level with the request context, or `API Error` on the stack with the context keys plus `exception`, `file`, `line` and `trace`, `exception` holding the message |
| LoggingService.ErrorEntryDetails | app/Services/ApiLoggingService.php:175-185 | the `API Error` context holds the exception's file, line and trace, and apart from those four keys it is exactly the request context |
| LoggingService.ErrorContext | app/Services/ApiLoggingService.php:376-384 | the stored trace is the first at most five frames |
| LoggingService.AnalysisAdded | app/Services/ApiLoggingService.php:56-59 | adding the security analysis changes no other entry of the log data |
| LoggingService.StoredRow | app/Services/ApiLoggingService.php:140-145 | the stored row carries every column of the log data and the insert time |
| LoggingService.StoredRowIsCreated | app/Services/ApiLoggingService.php:145 | that row is what `ApiLog::create` makes of the whole log data under the whitelist |
| LoggingService.AlertLast | app/Services/ApiLoggingService.php:69-71 | the immediate alert is written iff an exception meets a status of at least 500 |
| Middleware.ApiLoggingMiddleware.constructor | app/Http/Middleware/ApiLoggingMiddleware.php:13-17 | the middleware holds the logging service it is given |
| LoggingService.ApiLoggingService.constructor | app/Services/ApiLoggingService.php:20-24 | the request id is the inbound `X-Request-ID`, or a fresh identifier |
| LoggingService.ApiLoggingService.LogToDatabase | app/Services/ApiLoggingService.php:140-163 | when enabled, one row is stored, or one `Database logging failed` entry is written when the insert throws |
| LoggingService.ApiLoggingService.ProcessLogDataImmediate | app/Services/ApiLoggingService.php:107-120 | database, file, security and performance steps, in that order |
| LoggingService.ApiLoggingService.CollectLogData | app/Services/ApiLoggingService.php:29-53 | the log data is built from the request, response, exception and environment |
| LoggingService.ApiLoggingService.Record | app/Services/ApiLoggingService.php:60-71 | the immediate steps, then the alert for a failed server error |
| LoggingService.ApiLoggingService.AlertIfFailed | app/Services/ApiLoggingService.php:68-71 | the critical alert is appended exactly when an exception accompanies a status of 500 or more, and nothing is written otherwise |
| LoggingService.ApiLoggingService.LogCriticalErrorImmediate | app/Services/ApiLoggingService.php:125-138 | one `Critical API Error - Immediate Alert` entry is appended to the log, after everything already there |
| LoggingService.ApiLoggingService.AnalyseRequest | app/Services/ApiLoggingService.php:56-59 | no analysis iff encoding the input throws; otherwise both flags against the rows stored so far |
| LoggingService.ApiLoggingService.LogRequest | app/Services/ApiLoggingService.php:26-80 | every call is recorded; a thrown encoding stores nothing and writes one `Failed to log` entry; otherwise the rows and entries of the steps |
| LoggingService.LogDataFields | app/Services/ApiLoggingService.php:30-53 | no response means status 500, no size and null data; `cache_hit` iff the header is exactly `true`; an exception or no response means level error |
| LoggingService.NoSecretStored | app/Services/ApiLoggingService.php:45-46 | every sensitive header and every set sensitive field is stored redacted |
| LoggingService.NoAlertBeforeLast | app/Services/ApiLoggingService.php:107-120 | the immediate steps never write the critical alert |
| LoggingService.DatabaseNoAlert | app/Services/ApiLoggingService.php:156-161 | the database step never writes the critical alert |
| LoggingService.PerformanceNoAlert | app/Services/ApiLoggingService.php:267-300 | the performance step never writes the critical alert |
| LoggingService.FileNoAlert | app/Services/ApiLoggingService.php:165-194 | the file step never writes the critical alert |
| LoggingService.SecurityNoAlert | app/Services/ApiLoggingService.php:196-265 | the security step never writes the critical alert |
| LoggingService.CriticalAlertExactly | app/Services/ApiLoggingService.php:69-71 | a logged request carries the critical alert iff an exception meets a status of at least 500 |
| Middleware.WithRequestId | app/Http/Middleware/ApiLoggingMiddleware.php:25 | the header bag then holds the id under `x-request-id`, and every other header unchanged |
| Middleware.TaggedRequest | app/Http/Middleware/ApiLoggingMiddleware.php:25 | only the request's headers change, and they carry the id |
| Middleware.TaggedResponse | app/Http/Middleware/ApiLoggingMiddleware.php:34 | the response keeps its status and content and carries the id |
| Middleware.InboundIdKept | app/Services/ApiLoggingService.php:22 | a request that arrived with the id keeps its headers as they were |
| Middleware.ApiLoggingMiddleware.Handle | app/Http/Middleware/ApiLoggingMiddleware.php:22-44 | with the corrected response preview, logs exactly once with the response or the exception; returns the handler's response tagged with the id, or rethrows the same error; stores what `logRequest` stores |
| LogJob.RetryDelay | app/Jobs/ProcessApiLogJob.php:29-32 | the wait before retry n is always one of the backoff delays, and the n-th while there is one |
| LogJob.RetryDelays | app/Jobs/ProcessApiLogJob.php:19-32 | a job with n tries waits n - 1 times, each by its attempt's delay |
| LogJob.ThreeAttemptsWaitTwice | app/Jobs/ProcessApiLogJob.php:19-32 | three tries wait 10 s and 30 s; 60 s is never used |
| LogJob.JobRow | app/Jobs/ProcessApiLogJob.php:74-98 | the job's row has no cache hit and the insert time |
| LogJob.JobRowIsCreated | app/Jobs/ProcessApiLogJob.php:77-97 | it is what `ApiLog::create` makes of the projected fields |
| LogJob.JobRowLosesCacheHit | app/Jobs/ProcessApiLogJob.php:77-97 | it is the service's row with `cache_hit` false, so a cache hit is lost |
| LogJob.JobFileEntry | app/Jobs/ProcessApiLogJob.php:100-120 | always on the `api` channel at the given level, the request context kept; an exception adds exactly `error`, `file` and `line`, holding its message, file and line |
| LogJob.JobSecurityEventRules | app/Jobs/ProcessApiLogJob.php:122-151 | unauthorized iff 401 or 403; admin attempt iff no user and `admin` in the path; nothing else |
| LogJob.JobPerformanceEntries | app/Jobs/ProcessApiLogJob.php:153-171 | at most one entry: very slow iff over its threshold, slow iff over the slow one but not the other |
| LogJob.JobWritesOnePerformanceEntry | app/Jobs/ProcessApiLogJob.php:158-170 | a 6000 ms request: one job entry against the service's three |
| LogJob.ProcessApiLogJob.constructor | app/Jobs/ProcessApiLogJob.php:34-42 | the job keeps its log data, level and exception |
| LogJob.ProcessApiLogJob.LogToDatabase | app/Jobs/ProcessApiLogJob.php:74-98 | stores the projected row, or stores nothing and reports the insert's failure |
| LogJob.ProcessApiLogJob.Handle | app/Jobs/ProcessApiLogJob.php:47-72 | rethrows iff the insert fails, after one failure entry and with nothing stored; otherwise one row and the file, security and performance entries |
| LogJob.ProcessApiLogJob.Failed | app/Jobs/ProcessApiLogJob.php:173-180 | writes one entry with the request id, the error and the attempts |
| LogJob.CompletedRunNoFailure | app/Jobs/ProcessApiLogJob.php:47-61 | a completed run writes the file entry first and no failure entry |
| Geolocation.FetchLocationData | app/Services/IpGeolocationService.php:80-121 | a location iff the provider answered with status `success`, field by field, with `org` falling back to `isp` |
| Geolocation.CountryOf | app/Services/IpGeolocationService.php:42-43 | a missing location counts as `Unknown`/`XX` |
| Geolocation.CountryTallyTotals | app/Services/IpGeolocationService.php:36-56 | request counts add up to the input's and IP counts to the number of IPs |
| Geolocation.CountriesOfSnoc | app/Services/IpGeolocationService.php:40-52 | one more IP adds its country to the countries seen |
| Geolocation.CountryTallyKeys | app/Services/IpGeolocationService.php:45-52 | one entry per distinct country name |
| Geolocation.CacheKeyInjective | app/Services/IpGeolocationService.php:29 | two IPs never share a cache key |
| Geolocation.GeoService.constructor | app/Services/IpGeolocationService.php:10-13 | an empty cache and no provider calls |
| Geolocation.GeoService.GetLocationData | app/Services/IpGeolocationService.php:15-34 | local addresses and live cache entries call nothing; otherwise one provider call whose answer is cached for 86400 s |
| Geolocation.GeoService.IsHostingProvider | app/Services/IpGeolocationService.php:130-147 | true iff the lower-cased ISP contains one of the sixteen keywords |
| Geolocation.GeoService.CalculateRiskScore | app/Services/IpGeolocationService.php:149-191 | the sum of the highest tier per factor, never above 100 |
| Geolocation.GeoService.EnrichSuspiciousIps | app/Services/IpGeolocationService.php:64-78 | same length and order; each entry keeps its fields and gains its location's fields, hosting flag and score |
| Geolocation.GeoService.GetCountryStats | app/Services/IpGeolocationService.php:36-62 | the tally sorted by descending requests, keeping both totals |
| Geolocation.WithoutAbsent | app/Services/IpGeolocationService.php:154 | removing a character that is not there changes nothing |
| Geolocation.WithoutConcat | app/Services/IpGeolocationService.php:154 | removal distributes over concatenation |
| Geolocation.NoPercentInHundredths | app/Services/IpGeolocationService.php:154 | a formatted rate holds no `%` of its own |
| Geolocation.ErrorRateRiskOfRate | app/Services/IpGeolocationService.php:154-161 | the tier of a formatted rate `k/100%` is 30, 20, 10 or 0 by its hundredths |
| Geolocation.CapNeverBinds | app/Services/IpGeolocationService.php:149-191 | the tiers add to at most 100, so `min(…, 100)` never changes the score |
| Summary.Percent | app/Services/ApiLogSummaryService.php:199 | 0 for an empty total; at most 100% for a part of the total; exactly 100% for the whole; 0 iff under half a hundredth |
| Summary.PercentBounds | app/Services/ApiLogSummaryService.php:199 | the rounding formula's bounds |
| Summary.PercentMonotone | app/Services/ApiLogSummaryService.php:88-92 | a smaller part never gives a larger percentage |
| Summary.ErrorCount | app/Services/ApiLogSummaryService.php:61 | error rows are at most all rows |
| Summary.MaxResponseTime | app/Services/ApiLogSummaryService.php:60 | an upper bound that a row attains |
| Summary.ResponseTimePercentiles | app/Services/ApiLogSummaryService.php:202-219 | zeros for no rows; otherwise the sorted times at the floor indexes, all in range, each an input time, p50 ≤ p90 ≤ p95 ≤ p99 |
| Summary.PickedInOrder | app/Services/ApiLogSummaryService.php:211-217 | entries picked in index order from a sorted permutation are input values, in order |
| Summary.PercentileIndexes | app/Services/ApiLogSummaryService.php:211-217 | the four indexes are ordered and below the count |
| Summary.CalculateCacheHitRate | app/Services/ApiLogSummaryService.php:189-200 | hits counted on a narrowed copy, at most the total; the rate is their percentage, at most 100% |
| Summary.GetOverviewAsWritten | app/Services/ApiLogSummaryService.php:38-50 | as written: the cache-hit rate is over distinct signed-in users |
| Summary.GetOverview | app/Services/ApiLogSummaryService.php:38-50 | the cache-hit rate is the share of cache hits among the requests counted |
| Summary.EndpointGroupStats | app/Services/ApiLogSummaryService.php:56-62 | one figure per (endpoint, method) group: labelled "METHOD endpoint" from its requests, with its request count, rounded average and maximum response time, and error rate |
| Summary.EndpointStats | app/Services/ApiLogSummaryService.php:52-75 | the top 20 group figures by requests: min(20, groups) of them, drawn from the groups, descending, none left out busier than one kept; all of them when there are at most 20 |
| Summary.ErrorRateOfEndpoint | app/Services/ApiLogSummaryService.php:72 | the error rate is errors over requests, at most 100% |
| Summary.SlowGroupStats | app/Services/ApiLogSummaryService.php:225-230 | one figure per group, labelled "METHOD endpoint" from its requests, with its count, rounded average and maximum |
| Summary.SlowestEndpoints | app/Services/ApiLogSummaryService.php:221-242 | the top 10 group figures by average: min(10, groups) of them, drawn from the groups, descending, none left out slower than one kept; all of them when there are at most 10 |
| Summary.AverageAtMostMax | app/Services/ApiLogSummaryService.php:237-238 | a group's rounded average never exceeds its maximum |
| Summary.GetPerformanceStatsAsWritten | app/Services/ApiLogSummaryService.php:77-97 | as written: the total is the very-slow count, so the slow percentage can exceed 100%; percentiles and slowest endpoints over the very slow rows only |
| Summary.GetPerformanceStats | app/Services/ApiLogSummaryService.php:77-97 | slow and very-slow counts and their percentages of all requests, very slow ≤ slow ≤ 100%, percentiles and slowest endpoints over all selected rows |
| Summary.VerySlowIsSlow | app/Services/ApiLogSummaryService.php:81-82 | the very-slow count never exceeds the slow count |
| Summary.KeepSuspicious | app/Services/ApiLogSummaryService.php:254 | `having`: exactly the groups with more than 100 requests or more than 20 errors |
| Summary.IpGroupStats | app/Services/ApiLogSummaryService.php:248-253 | one figure per IP with its requests, errors, rate and distinct endpoints |
| Summary.SuspiciousIps | app/Services/ApiLogSummaryService.php:244-267 | the top 10 suspicious IP figures by requests: min(10, suspicious IPs) of them, each suspicious and drawn from the IP groups, descending, none left out busier than one kept; all of them when there are at most 10 |
| Summary.AccumulatedStep | app/Services/ApiLogSummaryService.php:276-281 | as written, each pattern's clause stays for the next pattern |
| Summary.PerPatternStep | app/Services/ApiLogSummaryService.php:276-281 | each pattern counted on its own |
| Summary.GetBotRequestsAsWritten | app/Services/ApiLogSummaryService.php:269-284 | the loop computes the accumulated counts, well formed |
| Summary.GetBotRequests | app/Services/ApiLogSummaryService.php:269-284 | the loop computes the per-pattern counts: known patterns with positive counts, in list order |
| Summary.BotStatsWellFormed | app/Services/ApiLogSummaryService.php:278-280 | a key only for a listed pattern with a positive count, each once |
| Summary.BotStatsAccumulatedNarrow | app/Services/ApiLogSummaryService.php:276-277 | as written, the counts never grow along the list |
| Summary.BotStatsPerPatternCounts | app/Services/ApiLogSummaryService.php:276-280 | a pattern is listed iff some selected agent contains it, with the number of such rows |
| Summary.LikeSelected | app/Services/ApiLogSummaryService.php:277 | a `like` count is positive iff some selected agent contains the fragment |
| Summary.NothingBothStatuses | app/Services/ApiLogSummaryService.php:104-108 | both status clauses select nothing: no forbidden attempts, bots or admin attempts |
| Summary.GetSecurityStatsAsWritten | app/Services/ApiLogSummaryService.php:99-110 | as written: forbidden attempts, suspicious IPs, bots and admin attempts are always empty |
| Summary.EmptySelectionNoBots | app/Services/ApiLogSummaryService.php:107 | no selected rows, no bot counts |
| Summary.GetSecurityStats | app/Services/ApiLogSummaryService.php:99-110 | each figure counted on its own clause of the base query |
| Summary.CityTallyAsWrittenStep | app/Services/ApiLogSummaryService.php:324-343 | as written, each located IP's clause stays on the builder |
| Summary.CityTallyStep | app/Services/ApiLogSummaryService.php:324-343 | each named city gains its IP's requests and one IP; other IPs change nothing |
| Summary.SingleIpCount | app/Services/ApiLogSummaryService.php:320-340 | under `distinct('ip_address')` and an IP clause, the count is at most one |
| Summary.CityTallyAsWrittenTotal | app/Services/ApiLogSummaryService.php:320-343 | as written, the tally's requests add up to at most one |
| Summary.CityTallyCountsRequests | app/Services/ApiLogSummaryService.php:339-342 | every city has at least as many requests as IPs |
| Summary.BumpKeepsAtLeast | app/Services/ApiLogSummaryService.php:341-342 | a bump by one or more keeps that |
| Summary.GetTopCitiesAsWritten | app/Services/ApiLogSummaryService.php:315-350 | as written: at most 10 descending, totalling at most one request |
| Summary.TopCitiesAsWrittenAtMostOne | app/Services/ApiLogSummaryService.php:315-350 | the top ten as written total at most one request |
| Summary.GetTopCities | app/Services/ApiLogSummaryService.php:315-350 | the top 10, descending, of the tally that credits each located IP with its own request count; over a base query without `distinct`, each city has at least as many requests as IPs |
| Summary.TallyCity | app/Services/ApiLogSummaryService.php:325-343 | one iteration updates the dictionary as the tally's step |
| Summary.TopCitiesOrdered | app/Services/ApiLogSummaryService.php:346-349 | the top ten are ordered and count requests |
| Summary.TopCitiesCountRequests | app/Services/ApiLogSummaryService.php:339-342 | every listed city has at least as many requests as IPs |
| Summary.IpCounts | app/Services/ApiLogSummaryService.php:291-299 | one pair per IP of the rows, no IP twice, each with the number of its rows |
| Summary.GetGeographicStats | app/Services/ApiLogSummaryService.php:286-313 | at most 10 countries, descending; `total_countries` counts all of them; the most active is the first listed, or none iff there are no countries; the listed countries' IP counts add up to at most the distinct IPs; the countries are the first 10 of the country tally of the per-IP counts, busiest first; the cities are the ten busiest of the corrected city tally |
| Summary.SlowShareExceedsWhole | app/Services/ApiLogSummaryService.php:81-92 | two slow rows, one very slow: 200% as written, 100% corrected |
| Summary.ForbiddenNotCounted | app/Services/ApiLogSummaryService.php:104-105 | a 403 row: 0 forbidden attempts as written, 1 corrected |
| Summary.CurlIsNotBot | app/Services/ApiLogSummaryService.php:273 | the agent `curl` does not contain `bot` |
| Summary.CurlNotCounted | app/Services/ApiLogSummaryService.php:276-281 | a `curl` row: no bot counts as written, `curl` counted when corrected |
| Summary.SecondCityNotCounted | app/Services/ApiLogSummaryService.php:320-342 | two IPs in two cities: the second city gets 0 requests as written, 1 corrected |
| Summary.AnonymousHitsIgnored | app/Services/ApiLogSummaryService.php:44-48 | an anonymous cache hit: 0% as written, 100% corrected |
| StoreTome.UuidLayout | app/Http/Requests/StoreTomeRequest.php:81 | an accepted value is 36 characters of 8-4-4-4-12 hex groups with version 1-5 and variant 8, 9, a or b |
| StoreTome.UuidIgnoresCase | app/Http/Requests/StoreTomeRequest.php:81 | the `i` flag: the shape ignores case |
| StoreTome.UuidFromGroups | app/Http/Requests/StoreTomeRequest.php:81 | any such groups with an allowed version and variant are accepted |
| StoreTome.UuidVersionChecked | app/Http/Requests/StoreTomeRequest.php:81 | the nil UUID and a version 7 UUID are not accepted |
| StoreTome.FindById | app/Http/Requests/StoreTomeRequest.php:82 | `find`: found iff some record has exactly that id |
| StoreTome.FirstByName | app/Http/Requests/StoreTomeRequest.php:85 | `whereRaw('LOWER(name) = ?')->first()`: none iff no lower-cased name equals it, else the id of one that does |
| StoreTome.Resolution | app/Http/Requests/StoreTomeRequest.php:67-86 | nothing for an absent, non-string or blank value; for a present non-blank string, exactly the lookup of the trimmed value |
| StoreTome.Merged | app/Http/Requests/StoreTomeRequest.php:88-98 | `merge` touches the target key at most |
| StoreTome.StoreTomeRequest.constructor | app/Http/Requests/StoreTomeRequest.php:51-57 | the request holds the input that `prepareForValidation` works on |
| StoreTome.StoreTomeRequest.ResolveSmartId | app/Http/Requests/StoreTomeRequest.php:65-99 | the input gains the target key set to the resolved id, or is unchanged |
| StoreTome.StoreTomeRequest.PrepareForValidation | app/Http/Requests/StoreTomeRequest.php:51-57 | the four resolutions, in order |
| StoreTome.ResolveTouchesOnlyTarget | app/Http/Requests/StoreTomeRequest.php:88-98 | only the target key can change: set to the found id, or the input unchanged |
| StoreTome.NameLookupIgnoresCase | app/Http/Requests/StoreTomeRequest.php:84-85 | two names equal up to case and surrounding blanks find the same record |
| StoreTome.UuidNotMatchedByName | app/Http/Requests/StoreTomeRequest.php:80-86 | a UUID-shaped value is never looked up by name |
| StoreTome.MergedAll | app/Http/Requests/StoreTomeRequest.php:51-57 | the four merges touch the target keys at most |
| StoreTome.MergedReadsSource | app/Http/Requests/StoreTomeRequest.php:71 | a merge depends on its input key alone |
| StoreTome.MergedAllReadsSources | app/Http/Requests/StoreTomeRequest.php:51-57 | the four merges depend on the four input keys alone |
| StoreTome.SourcesKept | app/Http/Requests/StoreTomeRequest.php:89 | merging target keys keeps the input keys |
| StoreTome.ResolveAllIsMerge | app/Http/Requests/StoreTomeRequest.php:51-57 | with targets apart from inputs, the sequence is one merge of everything resolved from the original input |
| StoreTome.SmartIdKeys | app/Http/Requests/StoreTomeRequest.php:53-56 | the four targets are the four `_id` keys, and they are apart from the inputs |
| StoreTome.ResolveAllKeepsOthers | app/Http/Requests/StoreTomeRequest.php:51-57 | every key but the targets keeps its value |
| StoreTome.ResolveAllIdempotent | app/Http/Requests/StoreTomeRequest.php:51-57 | resolving twice is resolving once |
| StoreTome.PrepareTouchesOnlyTargets | app/Http/Requests/StoreTomeRequest.php:51-57 | only `author_id`, `current_owner_id`, `language_id` and `last_known_location_id` can change |
| StoreTome.PrepareIdempotent | app/Http/Requests/StoreTomeRequest.php:51-57 | preparing twice is preparing once |
| ApiResponses.BaseTimestamps | app/Traits/ApiResponses.php:52-55 | `timestamp` and `response_time_ms` |
| ApiResponses.PrepareResponseData | app/Traits/ApiResponses.php:50-73 | a non-null `created_at`/`updated_at` moves, formatted, into the timestamps and out of the data; everything else stays; non-array data passes through |
| ApiResponses.BuildMeta | app/Traits/ApiResponses.php:75-82 | status, extra entries and timestamps; the timestamps are always the computed ones; an extra `status` wins |
| ApiResponses.Success | app/Traits/ApiResponses.php:11-32 | the status; `data` and `meta`, with `message` iff given; null data, absent or explicit, is an empty array; other non-array data passes through; array data loses exactly its non-null `created_at`/`updated_at` and keeps every other key and value; those timestamps arrive, formatted, in `meta.timestamps` beside the clock's `timestamp` and `response_time_ms`; every extra meta entry appears with its value, and an extra `status` replaces the status code |
| ApiResponses.Ok | app/Traits/ApiResponses.php:34-38 | status 200 with only `status` and `timestamps` in the meta; `message` iff given; null data is an empty array, other data as in `success`, its moved timestamps in `meta.timestamps` with the clock's two entries |
| ApiResponses.Error | app/Traits/ApiResponses.php:40-48 | only `message` and `meta`; the meta is the status and the two base timestamps |
| ApiResponses.MovedTimestampsRestore | app/Traits/ApiResponses.php:57-70 | putting the moved timestamps back gives the original array |
| TomeService.PageSize | app/Services/TomeService.php:25 | `paginate(0)` falls back to the model's 15; otherwise the given size |
| TomeService.CurrentPage | app/Services/TomeService.php:31 | the requested page when it is at least 1, else page 1 |
| TomeService.LastPage | app/Services/TomeService.php:32 | the least number of pages holding every tome, at least 1 |
| TomeService.PageItems | app/Services/TomeService.php:25-26 | at most a page of tomes, from the page's offset, empty past the end |
| TomeService.GetTomesForIndex | app/Services/TomeService.php:18-55 | `total` is always the count; at most the threshold returns all tomes with only `total` and `timestamp`; above it returns the current page with its pagination keys |
| TomeService.PagesCoverAll | app/Services/TomeService.php:25-32 | the pages from first to last, concatenated, are exactly the tomes in order |
| TomeService.PageLinks | app/Services/TomeService.php:33-34 | no previous link iff page 1; no next link iff on or past the last page; otherwise `url(page - 1)` and `url(page + 1)` |
| TomeService.FiveTomesNotPaginated | tests/Unit/TomeServiceTest.php:26-35 | five tomes: five returned, total 5, no `current_page` |
| TomeService.FifteenTomesPaginated | tests/Unit/TomeServiceTest.php:37-47 | fifteen tomes: the first ten, total 15, page 1 of 2 |
| TomeService.FifteenTomesSecondPage | app/Services/TomeService.php:24-36 | the second page holds the last five, links back to page 1, and has no next page |
| TomeService.ThresholdIsExclusive | app/Services/TomeService.php:24 | exactly `threshold` tomes are still returned whole |

## Left out

- `getSummary`, `getErrorStats` and `getTrafficPatterns` are not modelled:
  - `getSummary` only assembles Carbon dates and the helpers' results, and each helper is modelled on its own.
  - `getTrafficPatterns` depends on the SQL dialect's date functions.
  - `getErrorStats` groups by status code and error message. Grouped counting is modelled through the endpoint, IP and country figures.
- The average response time and data volume in the overview are floats over already-narrowed aggregates. They are not modelled.
- `queueLogData` and the job's dispatch are not modelled. `shouldUseQueue` always returns false, so the service writes synchronously. The job is modelled on its own.
- Laravel's retry scheduler and the job's 30-second timeout are outside the model. The job keeps the delays it would ask for.
- The job's `'unknown'` fallback is not modelled. It cannot arise, because the log data always carries a request id.
- `Log::` backends and `LogtailHandler` are outside the model. The log is the sequence of entries written.
- Entry messages are reduced to an event tag, and contexts to maps. Key order within PHP arrays is not modelled.
- The HTTP call in `fetchLocationData` is a parameter. Only its outcomes are modelled: an unsuccessful response, an error status, success, or an exception.
- `Geolocation.GeoService.GetLocationData`: the provider is a fixed function of the IP, so its answer for an IP never changes over time or between calls. This is what makes `loc == LocationOf(ip)` hold and lets every geography figure use `LocationOf`. Not captured: a cached answer that has gone stale within its 86400 s, and a lookup that fails (null, so not reused) and then succeeds on the next call. In the source such an IP can be `Unknown` in `getCountryStats` and located in `getTopCities` within one `getGeographicStats` call.
- `bulkLookup` is not modelled. It is unused and sleeps between calls.
- `filter_var`'s private/reserved range test is a parameter of the geolocation service.
- `json_encode`, `json_decode`, `Str::uuid`, `auth()`, `microtime` and `buildMetadata` are parameters.
- `formatTimestamp` and Carbon's ISO 8601 rendering are the `format` parameter.
- `JsonResource::toArray` is not modelled: resources are taken as already resolved.
- `TomeListResource`, `TomeResource`, the controllers and `rules()` are not part of this model.
- `getTomeDetail` is not modelled. It only eager-loads relations.
- `LoggingService.ApiLoggingService.LogRequest` models the corrected `sanitizeResponseData` (see the sanitizeResponseData row under Findings). A `TypeError` from the code as written would propagate to the middleware, and a `JsonException` would drop the whole log.
- `Middleware.ApiLoggingMiddleware.Handle`: does not model the code as written for a short body that decodes to a JSON scalar. There `sanitizeResponseData` throws a `TypeError`, which `catch (Exception $e)` in `logRequest` does not catch. The middleware's `catch (Throwable)` then logs the request a second time, with that error, and rethrows it, so the client gets a 500. The model uses the corrected response preview, under which it logs exactly once.
- `Middleware.ApiLoggingMiddleware.Handle`: the headers are set on shared request and response objects. The model passes them as values, so aliasing of those objects is not captured.
- `Middleware.ApiLoggingMiddleware.Handle`: `$next` is a function parameter. Later middleware and the controller are not modelled.
- `TomeService.GetTomesForIndex`: the page size is a natural number, so a negative `$perPage` is not modelled.
- `TomeService.GetTomesForIndex`: the URL is the path plus `?page=n`. Other query parameters are not carried over.
- `StoreTome.FindById` compares ids exactly. The database's collation is not modelled.
- `StoreTome.FirstByName`: `LOWER(name)` is modelled as ASCII-only case folding (`Text.Lower`), which is what PHP's `strtolower` does. MySQL's `LOWER` under a Unicode collation also folds non-ASCII letters, so names that differ only in such letters are not matched here.
- The `like` filters (`UserAgentLike`, `EndpointLike` in `api_log.dfy`): `like` is modelled as ASCII-only case-insensitive containment. A case-insensitive collation's folding of non-ASCII letters and the `%`/`_` wildcards inside a pattern are not modelled.
- `StoreTome.FirstByName`: `first()` without `ORDER BY` is modelled as the first match in table order.
- `ApiResponses.PrepareResponseData`: `data_get`/`data_forget` are modelled for keys without dots.
- The `array` casts of `ApiLog`'s JSON columns (`request_headers`, `request_data`, `response_data`, `error_context`, `metadata`, `security_analysis`): the record holds the decoded `Json` values directly, so the `json_encode`-on-write, `json_decode`-on-read round trip is taken as given rather than modelled.
- `ApiResponses.BuildMeta`: `array_merge`'s renumbering of integer keys is not modelled.
- `Summary.GetSecurityStats` states only the length of the enriched suspicious-IP list. The content of each entry is stated by `Geolocation.GeoService.EnrichSuspiciousIps`.
- `Summary.GetGeographicStats` takes its cities from the corrected `Summary.GetTopCities`. As written, `getGeographicStats` (line 305) hands `getTopCities` the builder it has just given `select`/`groupBy('ip_address')`, so its cities are those of `Summary.GetTopCitiesAsWritten`, together at most one request (see the row for lines 320-342 under Findings). The `select`/`groupBy` left on that builder are not modelled.
- Tie order within `groupBy`/`orderBy` is not modelled. Sorted lists are stated as permutations in non-increasing order.

## Findings

| source | as written | input that shows it | evidently intended | confidence | as-written member | corrected member |
|---|---|---|---|---|---|---|
| app/Services/ApiLogSummaryService.php:81-92 | the `> 5000` clause is added to the builder that already has `> 1000`. `totalRequests` is then counted with both, so it is the very-slow count | rows at 2000 ms and 6000 ms: the slow share is 200% | both percentages of all requests in the period | not executed | Summary.GetPerformanceStatsAsWritten | Summary.GetPerformanceStats |
| app/Services/ApiLogSummaryService.php:104-108 | the 403 count keeps the `401` clause. The suspicious IPs, bots and admin attempts are computed under both clauses | one row with status 403: `forbidden_attempts` is 0 | each figure on the base query | not executed | Summary.GetSecurityStatsAsWritten | Summary.GetSecurityStats |
| app/Services/ApiLogSummaryService.php:276-281 | each pattern's `like` clause stays on the builder, so a pattern is counted only among rows matching every earlier one | one row with agent `curl`: no bot counts | each pattern counted on its own | not executed | Summary.CurlNotCounted | Summary.GetBotRequests |
| app/Services/ApiLogSummaryService.php:320-342 | `distinct('ip_address')` and each IP's `where` stay on the builder. The first located IP counts at most 1 and every later one 0. `getGeographicStats` (line 305) returns these cities | two rows from two IPs in two cities: the second city has 0 requests | the number of requests from each IP | not executed | Summary.SecondCityNotCounted | Summary.GetTopCities |
| app/Services/ApiLogSummaryService.php:44-48 | `distinct` and `whereNotNull('user_id')` stay on the overview's builder, so the cache-hit rate is over distinct signed-in users | one anonymous request served from cache: 0% | the share of requests served from cache | not executed | Summary.AnonymousHitsIgnored | Summary.GetOverview |
| app/Services/ApiLoggingService.php:358-374 | `json_decode` with `JSON_THROW_ON_ERROR` throws on a body that is not JSON. A scalar JSON body breaks the `array\|null` return type. The `['raw' => …]` fallback is reached only for `null` | an empty 204 body: `JsonException`, and nothing is stored | keep such a body raw | not executed | LoggingService.EmptyBodyThrows | LoggingService.ResponseData |
