/**
 * Where the logging code writes: the `api_logs` table, appended to by `ApiLog::create`,
 * and Laravel's log channels, appended to by each `Log::` call. A log entry keeps the
 * channel, the level, the message and the context array of its call.
 */
module Logs {
  import opened JsonValue
  import opened ApiLog

  /** The default stack, `Log::channel('api')` and `Log::channel('performance')`. */
  datatype Channel = Stack | ApiChannel | PerformanceChannel

  datatype Severity = InfoSeverity | WarningSeverity | ErrorSeverity | CriticalSeverity

  /** What a `Log::` call reports, by its message. */
  datatype Event =
    | ApiRequest | ApiError | DatabaseLoggingFailed | CriticalAlert | LoggingFailed
    | FailedAuthentication | UnauthorizedAccess | UnauthenticatedAdmin | BotOrEmptyAgent
    | SqlInjection | UnusualPattern | SlowResponse | VerySlowResponse
    | JobSlowRequest | JobVerySlowRequest | JobFailed | JobFailedPermanently
  {
    /** The message text the source passes to `Log::`. */
    function Message(): string
    {
      match this
      case ApiRequest => "API Request"
      case ApiError => "API Error"
      case DatabaseLoggingFailed => "Database logging failed"
      case CriticalAlert => "Critical API Error - Immediate Alert"
      case LoggingFailed => "Failed to log API request"
      case FailedAuthentication => "Failed authentication attempt"
      case UnauthorizedAccess => "Security: Unauthorized access attempt"
      case UnauthenticatedAdmin => "Security: Unauthenticated admin access attempt"
      case BotOrEmptyAgent => "Security: Bot or empty user agent detected"
      case SqlInjection => "Potential SQL injection attempt"
      case UnusualPattern => "Unusual request pattern detected"
      case SlowResponse => "Slow API response"
      case VerySlowResponse => "Very slow API response"
      case JobSlowRequest => "Performance: Slow API request"
      case JobVerySlowRequest => "Performance: Very slow API request"
      case JobFailed => "Failed to process API log job"
      case JobFailedPermanently => "API log job failed permanently"
    }
  }

  datatype Entry = Entry(channel: Channel, severity: Severity, event: Event, context: map<string, Json>)

  /** `Log::{$level}(...)` for a derived log level. */
  function SeverityOf(level: LogLevel): (s: Severity)
    ensures s != CriticalSeverity
  {
    match level
    case Info => InfoSeverity
    case Warning => WarningSeverity
    case Error => ErrorSeverity
  }

  /** The events of a list of entries, in order. */
  function Events(es: seq<Entry>): seq<Event>
  {
    if es == [] then [] else [es[0].event] + Events(es[1..])
  }

  lemma {:induction false} EventsAppend(a: seq<Entry>, b: seq<Entry>)
    ensures Events(a + b) == Events(a) + Events(b)
  {
    if a != [] {
      assert (a + b)[1..] == a[1..] + b;
      EventsAppend(a[1..], b);
    } else {
      assert a + b == b;
    }
  }

  lemma {:induction false} EventsMember(es: seq<Entry>, e: Entry)
    requires e in es
    ensures e.event in Events(es)
  {
    if es[0] != e {
      EventsMember(es[1..], e);
    }
  }

  /** The entry `e` when `condition` holds, and nothing otherwise. */
  function When(condition: bool, e: Entry): (es: seq<Entry>)
    ensures Events(es) == if condition then [e.event] else []
  {
    if condition then [e] else []
  }

  /** A logging rule: the entry an `if (...) { Log::...(...); }` writes, and whether its condition holds. */
  datatype Rule = Rule(fires: bool, entry: Entry)

  /** The entries of rules checked one after another, in order. */
  function Fire(rules: seq<Rule>): seq<Entry>
  {
    if rules == [] then [] else When(rules[0].fires, rules[0].entry) + Fire(rules[1..])
  }

  /** An event is logged exactly when some rule with that event fires, and only rules' entries are written. */
  lemma {:induction false} FireEvents(rules: seq<Rule>)
    ensures forall ev :: ev in Events(Fire(rules)) <==>
              exists i :: 0 <= i < |rules| && rules[i].fires && rules[i].entry.event == ev
    ensures forall e :: e in Fire(rules) ==> exists i :: 0 <= i < |rules| && rules[i].fires && rules[i].entry == e
  {
    if rules != [] {
      var head := When(rules[0].fires, rules[0].entry);
      FireEvents(rules[1..]);
      EventsAppend(head, Fire(rules[1..]));
      forall ev | ev in Events(Fire(rules[1..]))
        ensures exists i :: 0 <= i < |rules| && rules[i].fires && rules[i].entry.event == ev
      {
        var j :| 0 <= j < |rules[1..]| && rules[1..][j].fires && rules[1..][j].entry.event == ev;
        assert rules[j + 1] == rules[1..][j];
      }
      forall ev | exists i :: 0 <= i < |rules| && rules[i].fires && rules[i].entry.event == ev
        ensures ev in Events(Fire(rules))
      {
        var i :| 0 <= i < |rules| && rules[i].fires && rules[i].entry.event == ev;
        if i > 0 {
          assert rules[1..][i - 1] == rules[i];
        }
      }
      forall e | e in Fire(rules[1..])
        ensures exists i :: 0 <= i < |rules| && rules[i].fires && rules[i].entry == e
      {
        var j :| 0 <= j < |rules[1..]| && rules[1..][j].fires && rules[1..][j].entry == e;
        assert rules[j + 1] == rules[1..][j];
      }
    }
  }

  /** An event only one rule can write is logged exactly when that rule fires. */
  lemma OnlyRuleFor(rules: seq<Rule>, k: int, ev: Event)
    requires 0 <= k < |rules| && rules[k].entry.event == ev
    requires forall i :: 0 <= i < |rules| && i != k ==> rules[i].entry.event != ev
    ensures ev in Events(Fire(rules)) <==> rules[k].fires
  {
    FireEvents(rules);
  }

  /** An event absent from each of four batches is absent from all of them written in turn. */
  lemma AbsentFromAll(ev: Event, a: seq<Entry>, b: seq<Entry>, c: seq<Entry>, d: seq<Entry>)
    requires ev !in Events(a) && ev !in Events(b) && ev !in Events(c) && ev !in Events(d)
    ensures ev !in Events(a + b + c + d)
  {
    EventsAppend(a, b);
    EventsAppend(a + b, c);
    EventsAppend(a + b + c, d);
  }

  /** A batch is followed by an entry written only when `fires`: its event is logged afterwards exactly when `fires`, if it was not before. */
  lemma LoggedLast(ev: Event, before: seq<Entry>, fires: bool, e: Entry)
    requires ev !in Events(before) && e.event == ev
    ensures ev in Events(before + When(fires, e)) <==> fires
  {
    EventsAppend(before, When(fires, e));
  }

  /** Writing `b` after a log that already ends with `a` leaves `a` then `b` after the earlier log. */
  lemma WrittenAfter(log: seq<Entry>, a: seq<Entry>, middle: seq<Entry>, b: seq<Entry>, after: seq<Entry>)
    requires middle == log + a
    requires after == middle + b
    ensures after == log + (a + b)
  {
  }

  /** Writing four batches in a row writes their concatenation. */
  lemma WrittenInTurn(log: seq<Entry>, a: seq<Entry>, b: seq<Entry>, c: seq<Entry>, d: seq<Entry>)
    ensures log + a + b + c + d == log + (a + b + c + d)
  {
  }

  /** The log files, as the sequence of entries written so far. */
  class Logger {
    var entries: seq<Entry>

    constructor()
      ensures entries == []
    {
      entries := [];
    }

    /** One or more `Log::` calls in a row. */
    method Write(es: seq<Entry>)
      modifies this
      ensures entries == old(entries) + es
    {
      entries := entries + es;
    }
  }

  /** The `api_logs` table, as the sequence of its rows in insertion order. */
  class Table {
    var rows: seq<ApiLogRecord>

    constructor(rows: seq<ApiLogRecord>)
      ensures this.rows == rows
    {
      this.rows := rows;
    }

    /** A successful `ApiLog::create`: the new row is appended. */
    method Create(row: ApiLogRecord)
      modifies this
      ensures rows == old(rows) + [row]
    {
      rows := rows + [row];
    }
  }
}
