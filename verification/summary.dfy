/**
 * `ApiLogSummaryService`: the analytics over the `api_logs` rows of a period. Each helper
 * receives the period's builder, clones it once, and then runs its queries on that clone.
 *
 * Where a helper calls `where` more than once on its clone, the clauses pile up, and several
 * figures are not what their names say. For each such helper there are two members here:
 * `…AsWritten`, which keeps the clauses piling up as the code does, with a lemma that shows
 * the difference on a small table, and the member without the suffix, which gives each
 * query its own clone and has the intended property proved.
 */
module Summary {
  import opened Wrappers
  import opened Text
  import opened Sorting
  import opened Grouping
  import opened ApiLog
  import opened Query
  import opened Geolocation

  // ---------------------------------------------------------------------------
  // Rates and averages

  /**
   * `round($part / $total * 100, 2)` in hundredths of a percent (halves round up, as PHP
   * rounds non-negative values), and 0 when `total` is 0.
   */
  function Percent(part: nat, total: nat): (p: nat)
    ensures total == 0 ==> p == 0
    ensures part <= total ==> p <= 10000
    ensures 0 < total && part == total ==> p == 10000
    ensures 0 < total ==> (p == 0 <==> 20000 * part < total)
  {
    if total == 0 then 0
    else
      var x := 20000 * part + total;
      var d := 2 * total;
      PercentBounds(part, total, x, d);
      x / d
  }

  lemma PercentBounds(part: nat, total: nat, x: nat, d: nat)
    requires total > 0 && x == 20000 * part + total && d == 2 * total
    ensures part <= total ==> x / d <= 10000
    ensures part == total ==> x / d == 10000
    ensures x / d == 0 <==> 20000 * part < total
  {
    if part <= total {
      DivBelow(x, d, 10000);
    }
    if part == total {
      DivAtLeast(x, d, 10000);
    }
    if 20000 * part < total {
      DivBelow(x, d, 0);
    } else {
      DivAtLeast(x, d, 1);
    }
  }

  lemma {:induction false} MulMonotone(a: nat, b: nat, c: nat)
    requires b <= c
    ensures a * b <= a * c
  {
    if a > 0 {
      MulMonotone(a - 1, b, c);
    }
  }

  lemma DivBelow(x: nat, d: nat, q: nat)
    requires d > 0 && x < d * (q + 1)
    ensures x / d <= q
  {
    var r := x / d;
    if r > q {
      MulMonotone(d, q + 1, r);
    }
  }

  lemma DivAtLeast(x: nat, d: nat, q: nat)
    requires d > 0 && d * q <= x
    ensures q <= x / d
  {
    var r := x / d;
    if r < q {
      MulMonotone(d, r + 1, q);
    }
  }

  lemma PercentMonotone(a: nat, b: nat, total: nat)
    requires a <= b
    ensures Percent(a, total) <= Percent(b, total)
  {
    if total > 0 {
      var x := 20000 * a + total;
      var y := 20000 * b + total;
      var d := 2 * total;
      DivMonotone(x, y, d);
      assert Percent(a, total) == x / d && Percent(b, total) == y / d;
    }
  }

  /** `round($sum / $n, 2)` on values already in hundredths: the nearest hundredth, halves up. */
  function RoundedAverage(sum: nat, n: nat): nat
    requires n > 0
  {
    (2 * sum + n) / (2 * n)
  }

  /** The error rate text the services write: `round(...) . '%'`. */
  function RateText(part: nat, total: nat): string
  {
    HundredthsToString(Percent(part, total)) + "%"
  }

  // ---------------------------------------------------------------------------
  // Column aggregates over a group of rows

  /** `SUM(CASE WHEN status_code >= 400 THEN 1 ELSE 0 END)`. */
  function ErrorCount(rows: seq<ApiLogRecord>): (e: nat)
    ensures e <= |rows|
  {
    if rows == [] then 0
    else ErrorCount(rows[..|rows| - 1]) + (if rows[|rows| - 1].statusCode >= 400 then 1 else 0)
  }

  /** `SUM(response_time_ms)`. */
  function TotalResponseTime(rows: seq<ApiLogRecord>): nat
  {
    if rows == [] then 0
    else TotalResponseTime(rows[..|rows| - 1]) + rows[|rows| - 1].responseTime
  }

  /** `MAX(response_time_ms)`: an upper bound that one of the rows reaches. */
  function MaxResponseTime(rows: seq<ApiLogRecord>): (m: nat)
    ensures forall row :: row in rows ==> row.responseTime <= m
    ensures rows != [] ==> exists row :: row in rows && row.responseTime == m
  {
    if rows == [] then 0
    else
      var rest := MaxResponseTime(rows[..|rows| - 1]);
      var last := rows[|rows| - 1];
      assert forall row :: row in rows <==> row in rows[..|rows| - 1] || row == last by {
        assert rows == rows[..|rows| - 1] + [last];
      }
      if last.responseTime >= rest then last.responseTime else rest
  }

  /** `COUNT(DISTINCT endpoint)`. */
  function EndpointsIn(rows: seq<ApiLogRecord>): set<string>
  {
    set row | row in rows :: row.endpoint
  }

  // ---------------------------------------------------------------------------
  // Percentiles

  datatype Percentiles = Percentiles(p50: int, p90: int, p95: int, p99: int)

  /**
   * `getResponseTimePercentiles`: all zero for no rows; otherwise the ascending list at index
   * `(int)($count * p)`, which is `count * p / 100` for p = 50, 90, 95, 99.
   */
  function ResponseTimePercentiles(times: seq<int>): (r: Percentiles)
    ensures times == [] ==> r == Percentiles(0, 0, 0, 0)
    ensures times != [] ==>
      var s := SortAsc(times);
      var n := |times|;
      && n * 50 / 100 < n && n * 99 / 100 < n
      && r == Percentiles(s[n * 50 / 100], s[n * 90 / 100], s[n * 95 / 100], s[n * 99 / 100])
    ensures times != [] ==> r.p50 in times && r.p90 in times && r.p95 in times && r.p99 in times
    ensures r.p50 <= r.p90 <= r.p95 <= r.p99
  {
    if times == [] then Percentiles(0, 0, 0, 0)
    else
      var s := SortAsc(times);
      var n := |times|;
      var a, b, c, d := n * 50 / 100, n * 90 / 100, n * 95 / 100, n * 99 / 100;
      PercentileIndexes(n);
      PickedInOrder(s, times, a, b, c, d);
      Percentiles(s[a], s[b], s[c], s[d])
  }

  /** Values picked from a sorted copy at growing indexes are values of the original, in order. */
  lemma PickedInOrder(s: seq<int>, times: seq<int>, a: nat, b: nat, c: nat, d: nat)
    requires multiset(s) == multiset(times) && Ascending(s)
    requires a <= b <= c <= d < |s|
    ensures s[a] in times && s[b] in times && s[c] in times && s[d] in times
    ensures s[a] <= s[b] <= s[c] <= s[d]
  {
    SortedMember(s, times, a);
    SortedMember(s, times, b);
    SortedMember(s, times, c);
    SortedMember(s, times, d);
  }

  /** `(int)($count * p)` is an index into the list, and grows with p. */
  lemma PercentileIndexes(n: nat)
    requires n > 0
    ensures n * 50 / 100 <= n * 90 / 100 <= n * 95 / 100 <= n * 99 / 100 < n
  {
    MulMonotone(n, 50, 90);
    MulMonotone(n, 90, 95);
    MulMonotone(n, 95, 99);
    DivMonotone(n * 50, n * 90, 100);
    DivMonotone(n * 90, n * 95, 100);
    DivMonotone(n * 95, n * 99, 100);
    MulMonotone(n, 99, 100);
    DivBelow(n * 99, 100, n - 1);
  }

  lemma DivMonotone(x: nat, y: nat, d: nat)
    requires d > 0 && x <= y
    ensures x / d <= y / d
  {
    DivAtLeast(y, d, x / d);
  }

  lemma SortedMember(s: seq<int>, times: seq<int>, i: nat)
    requires multiset(s) == multiset(times) && i < |s|
    ensures s[i] in times
  {
    assert s[i] in multiset(s);
  }

  // ---------------------------------------------------------------------------
  // Cache-hit rate

  /**
   * `calculateCacheHitRate($query)`: 0 when the query counts nothing, otherwise the share
   * of what it counts that also has `cache_hit` set; never above 100%.
   */
  method CalculateCacheHitRate(query: Builder) returns (rate: nat)
    ensures
      var total := CountOf(query.rows, query.filters, query.distinctOn);
      var hits := CountOf(query.rows, query.filters + [CacheHitIs(true)], query.distinctOn);
      hits <= total && rate == Percent(hits, total)
    ensures rate <= 10000
  {
    var q := query.Clone();
    var total := q.Count();
    Narrowing(query.rows, query.filters, [CacheHitIs(true)], query.distinctOn);
    if total == 0 {
      return 0;
    }
    q.Where(CacheHitIs(true));
    var hits := q.Count();
    rate := Percent(hits, total);
  }

  // ---------------------------------------------------------------------------
  // Overview

  /** The overview figures kept here; the average time and the data volume are floats. */
  datatype Overview = Overview(totalRequests: nat, uniqueIps: nat, uniqueUsers: nat, cacheHitRate: nat)

  /**
   * `getOverview` as written: `distinct` and `whereNotNull('user_id')` stay on the clone,
   * so the cache-hit rate is over distinct signed-in users, not over requests.
   */
  method GetOverviewAsWritten(query: Builder) returns (o: Overview)
    ensures o.totalRequests == CountOf(query.rows, query.filters, query.distinctOn)
    ensures o.uniqueIps == CountOf(query.rows, query.filters, Some(IpAddressColumn))
    ensures o.uniqueUsers == CountOf(query.rows, query.filters + [UserNotNull], Some(UserIdColumn))
    ensures o.cacheHitRate ==
      Percent(CountOf(query.rows, query.filters + [UserNotNull, CacheHitIs(true)], Some(UserIdColumn)), o.uniqueUsers)
  {
    var q := query.Clone();
    var total := q.Count();
    q.Distinct(IpAddressColumn);
    var ips := q.Count();
    q.Where(UserNotNull);
    q.Distinct(UserIdColumn);
    var users := q.Count();
    var rate := CalculateCacheHitRate(q);
    assert q.filters + [CacheHitIs(true)] == query.filters + [UserNotNull, CacheHitIs(true)];
    o := Overview(total, ips, users, rate);
  }

  /** `getOverview` with the users' count on its own clone: the rate is over requests. */
  method GetOverview(query: Builder) returns (o: Overview)
    ensures o.totalRequests == CountOf(query.rows, query.filters, query.distinctOn)
    ensures o.uniqueIps == CountOf(query.rows, query.filters, Some(IpAddressColumn))
    ensures o.uniqueUsers == CountOf(query.rows, query.filters + [UserNotNull], Some(UserIdColumn))
    ensures o.cacheHitRate ==
      Percent(CountOf(query.rows, query.filters + [CacheHitIs(true)], query.distinctOn), o.totalRequests)
    ensures o.cacheHitRate <= 10000
  {
    var q := query.Clone();
    var total := q.Count();
    var forIps := query.Clone();
    forIps.Distinct(IpAddressColumn);
    var ips := forIps.Count();
    var forUsers := query.Clone();
    forUsers.Where(UserNotNull);
    forUsers.Distinct(UserIdColumn);
    var users := forUsers.Count();
    var rate := CalculateCacheHitRate(query);
    o := Overview(total, ips, users, rate);
  }

  // ---------------------------------------------------------------------------
  // Endpoint statistics

  datatype EndpointStat = EndpointStat(
    endpoint: string,          // "METHOD endpoint"
    requests: nat,
    avgResponseTime: nat,      // hundredths of a millisecond
    maxResponseTime: nat,
    errorRate: string)

  function EndpointKey(row: ApiLogRecord): (string, string) { (row.endpoint, row.httpMethod) }

  function EndpointStatOf(g: Group<(string, string), ApiLogRecord>): EndpointStat
    requires g.members != []
  {
    var n := |g.members|;
    EndpointStat(g.key.1 + " " + g.key.0, n, RoundedAverage(TotalResponseTime(g.members), n),
                 MaxResponseTime(g.members), RateText(ErrorCount(g.members), n))
  }

  function RequestsOfStat(s: EndpointStat): int { s.requests }

  /**
   * The `select ... group by endpoint, method` rows before ordering: one per group, counting
   * that group's requests and errors.
   */
  function EndpointGroupStats(rows: seq<ApiLogRecord>): (r: seq<EndpointStat>)
    ensures |r| == |GroupBy(rows, EndpointKey)|
    ensures forall i :: 0 <= i < |r| ==>
      var members := MembersWith(rows, EndpointKey, GroupBy(rows, EndpointKey)[i].key);
      && (forall row :: row in members ==> r[i].endpoint == row.httpMethod + " " + row.endpoint)
      && r[i].requests == |members| > 0
      && r[i].avgResponseTime == RoundedAverage(TotalResponseTime(members), |members|)
      && r[i].maxResponseTime == MaxResponseTime(members)
      && r[i].errorRate == RateText(ErrorCount(members), |members|)
  {
    var gs := GroupBy(rows, EndpointKey);
    seq(|gs|, i requires 0 <= i < |gs| => EndpointStatOf(gs[i]))
  }

  /**
   * `getEndpointStats`: at most twenty of the group rows, most requested first; every
   * group is listed when there are no more than twenty.
   */
  function EndpointStats(rows: seq<ApiLogRecord>): (r: seq<EndpointStat>)
    ensures var all := EndpointGroupStats(rows);
      && |r| == (if |all| <= 20 then |all| else 20)
      && multiset(r) <= multiset(all)
      && forall x, y :: x in multiset(all) - multiset(r) && y in r ==> RequestsOfStat(x) <= RequestsOfStat(y)
    ensures NonIncreasing(r, RequestsOfStat)
    ensures forall s :: s in r ==> s in EndpointGroupStats(rows)
    ensures |EndpointGroupStats(rows)| <= 20 ==> multiset(r) == multiset(EndpointGroupStats(rows))
  {
    var sorted := SortDesc(EndpointGroupStats(rows), RequestsOfStat);
    TakenFrom(EndpointGroupStats(rows), RequestsOfStat, 20);
    TopN(EndpointGroupStats(rows), RequestsOfStat, 20);
    TakeKeepsOrder(sorted, 20, RequestsOfStat);
    Take(sorted, 20)
  }

  /** The rate each endpoint row shows is its share of failed requests, at most 100%. */
  lemma ErrorRateOfEndpoint(g: Group<(string, string), ApiLogRecord>)
    requires g.members != []
    ensures
      var e := ErrorCount(g.members);
      e <= |g.members| && EndpointStatOf(g).errorRate == RateText(e, |g.members|) &&
      Percent(e, |g.members|) <= 10000
  {
  }

  // ---------------------------------------------------------------------------
  // Slowest endpoints

  datatype SlowEndpoint = SlowEndpoint(endpoint: string, avgResponseTime: nat, maxResponseTime: nat, requests: nat)

  function SlowEndpointOf(g: Group<(string, string), ApiLogRecord>): SlowEndpoint
    requires g.members != []
  {
    var n := |g.members|;
    SlowEndpoint(g.key.1 + " " + g.key.0, RoundedAverage(TotalResponseTime(g.members), n),
                 MaxResponseTime(g.members), n)
  }

  function AverageOf(s: SlowEndpoint): int { s.avgResponseTime }

  function SlowGroupStats(rows: seq<ApiLogRecord>): (r: seq<SlowEndpoint>)
    ensures |r| == |GroupBy(rows, EndpointKey)|
    ensures forall i :: 0 <= i < |r| ==>
      var members := MembersWith(rows, EndpointKey, GroupBy(rows, EndpointKey)[i].key);
      && (forall row :: row in members ==> r[i].endpoint == row.httpMethod + " " + row.endpoint)
      && r[i].requests == |members| > 0
      && r[i].avgResponseTime == RoundedAverage(TotalResponseTime(members), |members|)
      && r[i].maxResponseTime == MaxResponseTime(members)
  {
    var gs := GroupBy(rows, EndpointKey);
    seq(|gs|, i requires 0 <= i < |gs| => SlowEndpointOf(gs[i]))
  }

  /** `getSlowestEndpoints`: at most ten group rows, the slowest on average first. */
  function SlowestEndpoints(rows: seq<ApiLogRecord>): (r: seq<SlowEndpoint>)
    ensures var all := SlowGroupStats(rows);
      && |r| == (if |all| <= 10 then |all| else 10)
      && multiset(r) <= multiset(all)
      && forall x, y :: x in multiset(all) - multiset(r) && y in r ==> AverageOf(x) <= AverageOf(y)
    ensures NonIncreasing(r, AverageOf)
    ensures forall s :: s in r ==> s in SlowGroupStats(rows)
    ensures |SlowGroupStats(rows)| <= 10 ==> multiset(r) == multiset(SlowGroupStats(rows))
  {
    var sorted := SortDesc(SlowGroupStats(rows), AverageOf);
    TakenFrom(SlowGroupStats(rows), AverageOf, 10);
    TopN(SlowGroupStats(rows), AverageOf, 10);
    TakeKeepsOrder(sorted, 10, AverageOf);
    Take(sorted, 10)
  }

  /** The average a slowest-endpoint row shows lies between nothing and its maximum. */
  lemma {:induction false} AverageAtMostMax(rows: seq<ApiLogRecord>)
    requires rows != []
    ensures RoundedAverage(TotalResponseTime(rows), |rows|) <= MaxResponseTime(rows)
  {
    TotalAtMost(rows, MaxResponseTime(rows));
    AverageBelowBound(TotalResponseTime(rows), |rows|, MaxResponseTime(rows));
  }

  /** A rounded average of `n` values totalling at most `n * m` is at most `m`. */
  lemma AverageBelowBound(sum: nat, n: nat, m: nat)
    requires n > 0 && sum <= n * m
    ensures RoundedAverage(sum, n) <= m
  {
    assert 2 * sum + n < 2 * n * (m + 1) by {
      assert 2 * n * (m + 1) == 2 * (n * m) + 2 * n;
    }
    DivBelow(2 * sum + n, 2 * n, m);
  }

  lemma {:induction false} TotalAtMost(rows: seq<ApiLogRecord>, m: nat)
    requires forall row :: row in rows ==> row.responseTime <= m
    ensures TotalResponseTime(rows) <= |rows| * m
  {
    if rows != [] {
      var prefix := rows[..|rows| - 1];
      var k := |prefix|;
      assert forall row :: row in prefix ==> row in rows;
      TotalAtMost(prefix, m);
      assert rows[|rows| - 1] in rows;
      assert TotalResponseTime(rows) <= k * m + m;
      assert k * m + m == (k + 1) * m;
    }
  }

  // ---------------------------------------------------------------------------
  // Performance

  /** `where('response_time_ms', '>', 1000)` and `'>', 5000`, in hundredths. */
  const Slow: Filter := ResponseTimeOver(100000)
  const VerySlow: Filter := ResponseTimeOver(500000)

  datatype PerformanceStats = PerformanceStats(
    slowCount: nat,
    slowPercentage: nat,
    verySlowCount: nat,
    verySlowPercentage: nat,
    percentiles: Percentiles,
    slowestEndpoints: seq<SlowEndpoint>)

  /**
   * `getPerformanceStats` as written: both thresholds stay on the clone, so the "total" is
   * the very-slow count, the percentages are taken of it, and the percentiles and slowest
   * endpoints only see the very slow requests.
   */
  method GetPerformanceStatsAsWritten(query: Builder) returns (p: PerformanceStats)
    ensures p.slowCount == CountOf(query.rows, query.filters + [Slow], query.distinctOn)
    ensures p.verySlowCount == CountOf(query.rows, query.filters + [Slow, VerySlow], query.distinctOn)
    ensures p.verySlowCount <= p.slowCount
    ensures p.slowPercentage == Percent(p.slowCount, p.verySlowCount)
    ensures p.verySlowPercentage == if p.verySlowCount > 0 then 10000 else 0
    ensures p.percentiles == ResponseTimePercentiles(ResponseTimesOf(Selected(query.rows, query.filters + [Slow, VerySlow])))
    ensures p.slowestEndpoints == SlowestEndpoints(Selected(query.rows, query.filters + [Slow, VerySlow]))
  {
    var q := query.Clone();
    q.Where(Slow);
    var slow := q.Count();
    q.Where(VerySlow);
    var verySlow := q.Count();
    var total := q.Count();
    assert q.filters == query.filters + [Slow] + [VerySlow] == query.filters + [Slow, VerySlow];
    Narrowing(query.rows, query.filters + [Slow], [VerySlow], query.distinctOn);
    var rows := q.Selection();
    p := PerformanceStats(slow, Percent(slow, total), verySlow, Percent(verySlow, total),
                          ResponseTimePercentiles(ResponseTimesOf(rows)), SlowestEndpoints(rows));
  }

  /**
   * `getPerformanceStats` with each threshold on its own clone: the counts are shares of all
   * requests, so neither percentage exceeds 100% and the very slow share is the smaller.
   */
  method GetPerformanceStats(query: Builder) returns (p: PerformanceStats)
    ensures p.slowCount == CountOf(query.rows, query.filters + [Slow], query.distinctOn)
    ensures p.verySlowCount == CountOf(query.rows, query.filters + [VerySlow], query.distinctOn)
    ensures p.slowPercentage == Percent(p.slowCount, CountOf(query.rows, query.filters, query.distinctOn))
    ensures p.verySlowPercentage == Percent(p.verySlowCount, CountOf(query.rows, query.filters, query.distinctOn))
    ensures p.verySlowPercentage <= p.slowPercentage <= 10000
    ensures p.percentiles == ResponseTimePercentiles(ResponseTimesOf(Selected(query.rows, query.filters)))
    ensures p.slowestEndpoints == SlowestEndpoints(Selected(query.rows, query.filters))
  {
    var slowQuery := query.Clone();
    slowQuery.Where(Slow);
    var slow := slowQuery.Count();
    var verySlowQuery := query.Clone();
    verySlowQuery.Where(VerySlow);
    var verySlow := verySlowQuery.Count();
    var total := query.Count();
    Narrowing(query.rows, query.filters, [Slow], query.distinctOn);
    VerySlowIsSlow(query.rows, query.filters, query.distinctOn);
    PercentMonotone(verySlow, slow, total);
    var rows := query.Selection();
    p := PerformanceStats(slow, Percent(slow, total), verySlow, Percent(verySlow, total),
                          ResponseTimePercentiles(ResponseTimesOf(rows)), SlowestEndpoints(rows));
  }

  /** Every request over five seconds is over one second. */
  lemma {:induction false} VerySlowIsSlow(rows: seq<ApiLogRecord>, fs: seq<Filter>, distinctOn: Option<Column>)
    ensures CountOf(rows, fs + [VerySlow], distinctOn) <= CountOf(rows, fs + [Slow], distinctOn)
  {
    forall row | AllHold(fs + [VerySlow], row) ensures AllHold(fs + [Slow], row) {
      AllHoldPrefix(fs, [VerySlow], row);
      assert Holds(VerySlow, row) by { assert (fs + [VerySlow])[|fs|] == VerySlow; }
      assert forall i :: 0 <= i < |fs| ==> (fs + [Slow])[i] == fs[i];
    }
    SelectedMonotone(rows, fs + [VerySlow], fs + [Slow]);
    if distinctOn.Some? {
      var narrow := Selected(rows, fs + [VerySlow]);
      var wide := Selected(rows, fs + [Slow]);
      SubsetCardinality(ValuesIn(narrow, distinctOn.value), ValuesIn(wide, distinctOn.value));
    }
  }

  /** Clauses that hold wherever others hold select no more rows than those. */
  lemma {:induction false} SelectedMonotone(rows: seq<ApiLogRecord>, narrow: seq<Filter>, wide: seq<Filter>)
    requires forall row :: AllHold(narrow, row) ==> AllHold(wide, row)
    ensures |Selected(rows, narrow)| <= |Selected(rows, wide)|
  {
    if rows != [] {
      SelectedMonotone(rows[..|rows| - 1], narrow, wide);
    }
  }

  // ---------------------------------------------------------------------------
  // Suspicious IPs

  function IpKey(row: ApiLogRecord): string { row.ipAddress }

  function SuspiciousIpOf(g: Group<string, ApiLogRecord>): SuspiciousIp
    requires g.members != []
  {
    var n := |g.members|;
    var e := ErrorCount(g.members);
    SuspiciousIp(g.key, n, e, RateText(e, n), |EndpointsIn(g.members)|)
  }

  /** `havingRaw('request_count > 100 OR error_count > 20')`. */
  predicate IsSuspicious(x: SuspiciousIp)
  {
    x.requests > 100 || x.errors > 20
  }

  function KeepSuspicious(xs: seq<SuspiciousIp>): (r: seq<SuspiciousIp>)
    ensures forall x :: x in r <==> x in xs && IsSuspicious(x)
    ensures |r| <= |xs|
  {
    if xs == [] then []
    else (if IsSuspicious(xs[0]) then [xs[0]] else []) + KeepSuspicious(xs[1..])
  }

  function RequestsOfIp(x: SuspiciousIp): int { x.requests }

  /** The `select ... group by ip_address` rows before `having`: one per IP. */
  function IpGroupStats(rows: seq<ApiLogRecord>): (r: seq<SuspiciousIp>)
    ensures |r| == |GroupBy(rows, IpKey)| <= |rows|
    ensures forall i :: 0 <= i < |r| ==>
      var members := MembersWith(rows, IpKey, r[i].ip);
      && r[i].requests == |members| > 0
      && r[i].errors == ErrorCount(members) <= r[i].requests
      && r[i].errorRate == RateText(r[i].errors, r[i].requests)
      && r[i].uniqueEndpoints == |EndpointsIn(members)|
  {
    var gs := GroupBy(rows, IpKey);
    seq(|gs|, i requires 0 <= i < |gs| => SuspiciousIpOf(gs[i]))
  }

  /**
   * `getSuspiciousIPs`: the IPs with more than 100 requests or more than 20 errors, at most
   * ten, the busiest first.
   */
  function SuspiciousIps(rows: seq<ApiLogRecord>): (r: seq<SuspiciousIp>)
    ensures |r| <= 10 && |r| <= |rows|
    ensures NonIncreasing(r, RequestsOfIp)
    ensures forall x :: x in r ==> IsSuspicious(x) && x in IpGroupStats(rows)
    ensures var all := KeepSuspicious(IpGroupStats(rows));
      && |r| == (if |all| <= 10 then |all| else 10)
      && multiset(r) <= multiset(all)
      && (forall x, y :: x in multiset(all) - multiset(r) && y in r ==> RequestsOfIp(x) <= RequestsOfIp(y))
      && (|all| <= 10 ==> multiset(r) == multiset(all))
  {
    var kept := KeepSuspicious(IpGroupStats(rows));
    var sorted := SortDesc(kept, RequestsOfIp);
    TakenFrom(kept, RequestsOfIp, 10);
    TopN(kept, RequestsOfIp, 10);
    TakeKeepsOrder(sorted, 10, RequestsOfIp);
    Take(sorted, 10)
  }

  // ---------------------------------------------------------------------------
  // Bot requests

  const BotPatterns: seq<string> := ["bot", "crawler", "spider", "curl", "wget"]

  /** The `$botStats` array as the loop fills it when every `where` stays on the clone. */
  function BotStatsAccumulated(rows: seq<ApiLogRecord>, fs: seq<Filter>, distinctOn: Option<Column>,
                               patterns: seq<string>): seq<(string, nat)>
    decreases |patterns|
  {
    if patterns == [] then []
    else
      var narrowed := fs + [UserAgentLike(patterns[0])];
      var n := CountOf(rows, narrowed, distinctOn);
      (if n > 0 then [(patterns[0], n)] else []) + BotStatsAccumulated(rows, narrowed, distinctOn, patterns[1..])
  }

  /** The `$botStats` array with one fresh clone per pattern. */
  function BotStatsPerPattern(rows: seq<ApiLogRecord>, fs: seq<Filter>, distinctOn: Option<Column>,
                              patterns: seq<string>): seq<(string, nat)>
  {
    if patterns == [] then []
    else
      var n := CountOf(rows, fs + [UserAgentLike(patterns[0])], distinctOn);
      (if n > 0 then [(patterns[0], n)] else []) + BotStatsPerPattern(rows, fs, distinctOn, patterns[1..])
  }

  /** Every pattern a bot-statistics list names is one of `patterns`, with a positive count. */
  ghost predicate WellFormedBotStats(stats: seq<(string, nat)>, patterns: seq<string>)
  {
    forall e :: e in stats ==> e.0 in patterns && e.1 > 0
  }

  function BotEntry(pattern: string, count: nat): seq<(string, nat)>
  {
    if count > 0 then [(pattern, count)] else []
  }

  lemma AccumulatedStep(rows: seq<ApiLogRecord>, fs: seq<Filter>, distinctOn: Option<Column>,
                        patterns: seq<string>, i: nat, count: nat)
    requires i < |patterns| && count == CountOf(rows, fs + [UserAgentLike(patterns[i])], distinctOn)
    ensures BotStatsAccumulated(rows, fs, distinctOn, patterns[i..]) ==
            BotEntry(patterns[i], count) +
            BotStatsAccumulated(rows, fs + [UserAgentLike(patterns[i])], distinctOn, patterns[i + 1..])
  {
    assert patterns[i..][0] == patterns[i] && patterns[i..][1..] == patterns[i + 1..];
  }

  lemma PerPatternStep(rows: seq<ApiLogRecord>, fs: seq<Filter>, distinctOn: Option<Column>,
                       patterns: seq<string>, i: nat, count: nat)
    requires i < |patterns| && count == CountOf(rows, fs + [UserAgentLike(patterns[i])], distinctOn)
    ensures BotStatsPerPattern(rows, fs, distinctOn, patterns[i..]) ==
            BotEntry(patterns[i], count) + BotStatsPerPattern(rows, fs, distinctOn, patterns[i + 1..])
  {
    assert patterns[i..][0] == patterns[i] && patterns[i..][1..] == patterns[i + 1..];
  }

  /** `getBotRequests` as written: each pattern's clause stays on the clone for the next. */
  method GetBotRequestsAsWritten(query: Builder) returns (stats: seq<(string, nat)>)
    ensures stats == BotStatsAccumulated(query.rows, query.filters, query.distinctOn, BotPatterns)
    ensures WellFormedBotStats(stats, BotPatterns)
  {
    var rows, fs, distinctOn := query.rows, query.filters, query.distinctOn;
    var q := query.Clone();
    stats := [];
    var i := 0;
    while i < |BotPatterns|
      invariant 0 <= i <= |BotPatterns|
      invariant q.rows == rows && q.distinctOn == distinctOn
      invariant stats + BotStatsAccumulated(rows, q.filters, distinctOn, BotPatterns[i..]) ==
                BotStatsAccumulated(rows, fs, distinctOn, BotPatterns)
    {
      var pattern := BotPatterns[i];
      ghost var before := q.filters;
      q.Where(UserAgentLike(pattern));
      var count := q.Count();
      AccumulatedStep(rows, before, distinctOn, BotPatterns, i, count);
      var entry := BotEntry(pattern, count);
      ghost var later := BotStatsAccumulated(rows, q.filters, distinctOn, BotPatterns[i + 1..]);
      assert stats + entry + later == stats + (entry + later);
      stats := stats + entry;
      i := i + 1;
    }
    BotStatsWellFormed(rows, fs, distinctOn, BotPatterns, true);
  }

  /** `getBotRequests` with a fresh clone per pattern. */
  method GetBotRequests(query: Builder) returns (stats: seq<(string, nat)>)
    ensures stats == BotStatsPerPattern(query.rows, query.filters, query.distinctOn, BotPatterns)
    ensures WellFormedBotStats(stats, BotPatterns)
  {
    var rows, fs, distinctOn := query.rows, query.filters, query.distinctOn;
    stats := [];
    var i := 0;
    while i < |BotPatterns|
      invariant 0 <= i <= |BotPatterns|
      invariant stats + BotStatsPerPattern(rows, fs, distinctOn, BotPatterns[i..]) ==
                BotStatsPerPattern(rows, fs, distinctOn, BotPatterns)
    {
      var pattern := BotPatterns[i];
      var q := query.Clone();
      q.Where(UserAgentLike(pattern));
      var count := q.Count();
      PerPatternStep(rows, fs, distinctOn, BotPatterns, i, count);
      var entry := BotEntry(pattern, count);
      assert stats + entry + BotStatsPerPattern(rows, fs, distinctOn, BotPatterns[i + 1..]) ==
             stats + (entry + BotStatsPerPattern(rows, fs, distinctOn, BotPatterns[i + 1..]));
      stats := stats + entry;
      i := i + 1;
    }
    BotStatsWellFormed(rows, fs, distinctOn, BotPatterns, false);
  }

  lemma {:induction false} BotStatsWellFormed(rows: seq<ApiLogRecord>, fs: seq<Filter>, distinctOn: Option<Column>,
                                              patterns: seq<string>, accumulated: bool)
    ensures WellFormedBotStats(
      if accumulated then BotStatsAccumulated(rows, fs, distinctOn, patterns)
      else BotStatsPerPattern(rows, fs, distinctOn, patterns), patterns)
    decreases |patterns|
  {
    if patterns != [] {
      BotStatsWellFormed(rows, fs + [UserAgentLike(patterns[0])], distinctOn, patterns[1..], true);
      BotStatsWellFormed(rows, fs, distinctOn, patterns[1..], false);
      assert forall p :: p in patterns[1..] ==> p in patterns;
    }
  }

  /**
   * As written, each pattern is counted under the clauses of all patterns before it, so the
   * counts the list shows never grow from one listed pattern to the next.
   */
  lemma {:induction false} BotStatsAccumulatedNarrow(rows: seq<ApiLogRecord>, fs: seq<Filter>, distinctOn: Option<Column>,
                                                     patterns: seq<string>)
    ensures forall e :: e in BotStatsAccumulated(rows, fs, distinctOn, patterns) ==> e.1 <= CountOf(rows, fs, distinctOn)
    ensures forall i, j :: 0 <= i < j < |BotStatsAccumulated(rows, fs, distinctOn, patterns)| ==>
      BotStatsAccumulated(rows, fs, distinctOn, patterns)[i].1 >= BotStatsAccumulated(rows, fs, distinctOn, patterns)[j].1
    decreases |patterns|
  {
    if patterns != [] {
      var narrowed := fs + [UserAgentLike(patterns[0])];
      var n := CountOf(rows, narrowed, distinctOn);
      var rest := BotStatsAccumulated(rows, narrowed, distinctOn, patterns[1..]);
      BotStatsAccumulatedNarrow(rows, narrowed, distinctOn, patterns[1..]);
      Narrowing(rows, fs, [UserAgentLike(patterns[0])], distinctOn);
      assert BotStatsAccumulated(rows, fs, distinctOn, patterns) == BotEntry(patterns[0], n) + rest;
      PrependLargest(patterns[0], n, rest, CountOf(rows, fs, distinctOn));
    }
  }

  /** A count at most `bound`, put before counts no larger than it, keeps the list non-increasing and bounded. */
  lemma PrependLargest(pattern: string, n: nat, rest: seq<(string, nat)>, bound: nat)
    requires n <= bound
    requires forall e :: e in rest ==> e.1 <= n
    requires forall i, j :: 0 <= i < j < |rest| ==> rest[i].1 >= rest[j].1
    ensures forall e :: e in BotEntry(pattern, n) + rest ==> e.1 <= bound
    ensures var r := BotEntry(pattern, n) + rest;
      forall i, j :: 0 <= i < j < |r| ==> r[i].1 >= r[j].1
  {
    var r := BotEntry(pattern, n) + rest;
    forall i, j | 0 <= i < j < |r| ensures r[i].1 >= r[j].1 {
      var d := |BotEntry(pattern, n)|;
      assert r[j] == rest[j - d];
      assert r[j] in rest;
      if i >= d {
        assert r[i] == rest[i - d];
      }
    }
  }

  /**
   * With a clone per pattern, a pattern is listed exactly when some request of the period
   * has a user agent containing it, and its count is the number of such requests.
   */
  lemma {:induction false} BotStatsPerPatternCounts(rows: seq<ApiLogRecord>, fs: seq<Filter>, patterns: seq<string>, p: string)
    requires p in patterns
    ensures (exists n :: (p, n) in BotStatsPerPattern(rows, fs, None, patterns)) <==>
            exists row :: row in rows && AllHold(fs, row) && row.userAgent.Some? && ContainsIgnoringCase(row.userAgent.value, p)
    ensures forall n :: (p, n) in BotStatsPerPattern(rows, fs, None, patterns) ==> n == |Selected(rows, fs + [UserAgentLike(p)])|
    decreases |patterns|
  {
    var n0 := CountOf(rows, fs + [UserAgentLike(patterns[0])], None);
    var tail := BotStatsPerPattern(rows, fs, None, patterns[1..]);
    assert BotStatsPerPattern(rows, fs, None, patterns) == BotEntry(patterns[0], n0) + tail;
    if p in patterns[1..] {
      BotStatsPerPatternCounts(rows, fs, patterns[1..], p);
    } else {
      BotStatsWellFormed(rows, fs, None, patterns[1..], false);
    }
    if p == patterns[0] {
      LikeSelected(rows, fs, p);
    }
  }

  lemma LikeSelected(rows: seq<ApiLogRecord>, fs: seq<Filter>, p: string)
    ensures |Selected(rows, fs + [UserAgentLike(p)])| > 0 <==>
            exists row :: row in rows && AllHold(fs, row) && row.userAgent.Some? && ContainsIgnoringCase(row.userAgent.value, p)
  {
    var s := Selected(rows, fs + [UserAgentLike(p)]);
    forall row | row in rows && AllHold(fs, row) && row.userAgent.Some? && ContainsIgnoringCase(row.userAgent.value, p)
      ensures row in s
    {
      AllHoldSnoc(fs, UserAgentLike(p), row);
    }
    if |s| > 0 {
      var row := s[0];
      assert row in s;
      AllHoldPrefix(fs, [UserAgentLike(p)], row);
      assert Holds((fs + [UserAgentLike(p)])[|fs|], row);
    }
  }

  // ---------------------------------------------------------------------------
  // Security

  datatype SecurityStats = SecurityStats(
    failedAuthAttempts: nat,
    forbiddenAttempts: nat,
    suspiciousIps: seq<EnrichedIp>,
    botRequests: seq<(string, nat)>,
    adminAccessAttempts: nat)

  const AdminFragment: string := "admin"

  /** Under clauses asking for two different statuses nothing at all is counted or listed. */
  lemma {:induction false} NothingBothStatuses(rows: seq<ApiLogRecord>, fs: seq<Filter>, distinctOn: Option<Column>)
    requires StatusIs(401) in fs && StatusIs(403) in fs
    ensures Selected(rows, fs) == [] && CountOf(rows, fs, distinctOn) == 0
    ensures BotStatsAccumulated(rows, fs, distinctOn, BotPatterns) == []
    ensures CountOf(rows, fs + [EndpointLike(AdminFragment)], distinctOn) == 0
  {
    ConflictingStatuses(rows, fs, 401, 403, distinctOn);
    ConflictingStatuses(rows, fs + [EndpointLike(AdminFragment)], 401, 403, distinctOn);
    EmptySelectionNoBots(rows, fs, distinctOn, BotPatterns);
  }

  /**
   * `getSecurityStats` as written: `status_code = 401` stays on the clone when 403 is
   * counted, so the forbidden count, the suspicious IPs, the bot statistics and the admin
   * attempts are all taken over requests that are both 401 and 403, which none is.
   */
  method GetSecurityStatsAsWritten(query: Builder, geo: GeoService, now: int) returns (s: SecurityStats)
    requires geo.Valid()
    modifies geo
    ensures geo.Valid()
    ensures s.failedAuthAttempts == CountOf(query.rows, query.filters + [StatusIs(401)], query.distinctOn)
    ensures s.forbiddenAttempts == CountOf(query.rows, query.filters + [StatusIs(401), StatusIs(403)], query.distinctOn)
    ensures s.forbiddenAttempts == 0 && s.suspiciousIps == [] && s.botRequests == [] && s.adminAccessAttempts == 0
  {
    var q := query.Clone();
    q.Where(StatusIs(401));
    var failed := q.Count();
    q.Where(StatusIs(403));
    var forbidden := q.Count();
    assert q.filters == query.filters + [StatusIs(401), StatusIs(403)];
    NothingBothStatuses(q.rows, q.filters, q.distinctOn);
    var enriched := geo.EnrichSuspiciousIps(SuspiciousIps(q.Selection()), now);
    var bots := GetBotRequestsAsWritten(q);
    q.Where(EndpointLike(AdminFragment));
    var admin := q.Count();
    s := SecurityStats(failed, forbidden, enriched, bots, admin);
  }

  lemma {:induction false} EmptySelectionNoBots(rows: seq<ApiLogRecord>, fs: seq<Filter>, distinctOn: Option<Column>, patterns: seq<string>)
    requires Selected(rows, fs) == []
    ensures BotStatsAccumulated(rows, fs, distinctOn, patterns) == []
    decreases |patterns|
  {
    if patterns != [] {
      var narrowed := fs + [UserAgentLike(patterns[0])];
      SelectedShrinks(rows, fs, [UserAgentLike(patterns[0])]);
      assert Selected(rows, narrowed) == [];
      assert ValuesIn([], IpAddressColumn) == {} && ValuesIn([], UserIdColumn) == {};
      EmptySelectionNoBots(rows, narrowed, distinctOn, patterns[1..]);
    }
  }

  /**
   * `getSecurityStats` with a clone per figure: each count is over the period's requests
   * with that status (or that endpoint), and the lists are over all of the period's requests.
   */
  method GetSecurityStats(query: Builder, geo: GeoService, now: int) returns (s: SecurityStats)
    requires geo.Valid()
    modifies geo
    ensures geo.Valid()
    ensures s.failedAuthAttempts == CountOf(query.rows, query.filters + [StatusIs(401)], query.distinctOn)
    ensures s.forbiddenAttempts == CountOf(query.rows, query.filters + [StatusIs(403)], query.distinctOn)
    ensures s.adminAccessAttempts == CountOf(query.rows, query.filters + [EndpointLike(AdminFragment)], query.distinctOn)
    ensures |s.suspiciousIps| == |SuspiciousIps(Selected(query.rows, query.filters))|
    ensures s.botRequests == BotStatsPerPattern(query.rows, query.filters, query.distinctOn, BotPatterns)
  {
    var unauthorized := query.Clone();
    unauthorized.Where(StatusIs(401));
    var failed := unauthorized.Count();
    var forbiddenQuery := query.Clone();
    forbiddenQuery.Where(StatusIs(403));
    var forbidden := forbiddenQuery.Count();
    var enriched := geo.EnrichSuspiciousIps(SuspiciousIps(query.Selection()), now);
    var bots := GetBotRequests(query);
    var adminQuery := query.Clone();
    adminQuery.Where(EndpointLike(AdminFragment));
    var admin := adminQuery.Count();
    s := SecurityStats(failed, forbidden, enriched, bots, admin);
  }

  // ---------------------------------------------------------------------------
  // Top cities

  datatype CityInfo = CityInfo(city: string, country: string, countryCode: string)

  /** A location the city list counts: known, and not in the city called 'Unknown'. */
  predicate NamedCity(location: Option<Location>)
  {
    location.Some? && location.value.city != "Unknown"
  }

  function CityKey(l: Location): string { l.city + ", " + l.country }

  function CityInfoOf(l: Location): CityInfo { CityInfo(l.city, l.country, l.countryCode) }

  /**
   * The `$cities` accumulator of `getTopCities` as written, and the clauses its builder
   * carries afterwards: each located IP's `where` stays on the builder, which also counts
   * distinct IPs.
   */
  function CityTallyAsWritten(rows: seq<ApiLogRecord>, fs: seq<Filter>, ips: seq<string>,
                              locate: string -> Option<Location>): (seq<Entry<CityInfo>>, seq<Filter>)
  {
    if ips == [] then ([], fs)
    else
      var (t, applied) := CityTallyAsWritten(rows, fs, ips[..|ips| - 1], locate);
      var ip := ips[|ips| - 1];
      var location := locate(ip);
      if NamedCity(location) then
        var narrowed := applied + [IpIs(ip)];
        (Bump(t, CityKey(location.value), CityInfoOf(location.value), CountOf(rows, narrowed, Some(IpAddressColumn))),
         narrowed)
      else (t, applied)
  }

  /** The `$cities` accumulator with each IP's requests counted on a fresh clone. */
  function CityTally(rows: seq<ApiLogRecord>, fs: seq<Filter>, distinctOn: Option<Column>, ips: seq<string>,
                     locate: string -> Option<Location>): seq<Entry<CityInfo>>
  {
    if ips == [] then []
    else
      var t := CityTally(rows, fs, distinctOn, ips[..|ips| - 1], locate);
      var ip := ips[|ips| - 1];
      var location := locate(ip);
      if NamedCity(location) then
        Bump(t, CityKey(location.value), CityInfoOf(location.value), CountOf(rows, fs + [IpIs(ip)], distinctOn))
      else t
  }

  lemma CityTallyAsWrittenStep(rows: seq<ApiLogRecord>, fs: seq<Filter>, ips: seq<string>, i: nat,
                               locate: string -> Option<Location>)
    requires i < |ips|
    ensures
      var (t, applied) := CityTallyAsWritten(rows, fs, ips[..i], locate);
      var location := locate(ips[i]);
      CityTallyAsWritten(rows, fs, ips[..i + 1], locate) ==
        if NamedCity(location) then
          (Bump(t, CityKey(location.value), CityInfoOf(location.value),
                CountOf(rows, applied + [IpIs(ips[i])], Some(IpAddressColumn))),
           applied + [IpIs(ips[i])])
        else (t, applied)
  {
    assert ips[..i + 1][..i] == ips[..i];
  }

  lemma CityTallyStep(rows: seq<ApiLogRecord>, fs: seq<Filter>, distinctOn: Option<Column>, ips: seq<string>, i: nat,
                      locate: string -> Option<Location>)
    requires i < |ips|
    ensures
      var t := CityTally(rows, fs, distinctOn, ips[..i], locate);
      var location := locate(ips[i]);
      CityTally(rows, fs, distinctOn, ips[..i + 1], locate) ==
        if NamedCity(location) then
          Bump(t, CityKey(location.value), CityInfoOf(location.value), CountOf(rows, fs + [IpIs(ips[i])], distinctOn))
        else t
  {
    assert ips[..i + 1][..i] == ips[..i];
  }

  /** Counting distinct IPs under a clause fixing the IP gives at most one. */
  lemma SingleIpCount(rows: seq<ApiLogRecord>, fs: seq<Filter>, ip: string)
    requires IpIs(ip) in fs
    ensures CountOf(rows, fs, Some(IpAddressColumn)) <= 1
  {
    var s := Selected(rows, fs);
    var i :| 0 <= i < |fs| && fs[i] == IpIs(ip);
    assert ValuesIn(s, IpAddressColumn) <= {ip} by {
      forall v | v in ValuesIn(s, IpAddressColumn) ensures v == ip {
        var row :| row in s && ValueOf(row, IpAddressColumn).Some? && ValueOf(row, IpAddressColumn).value == v;
        assert Holds(fs[i], row);
      }
    }
    SubsetCardinality(ValuesIn(s, IpAddressColumn), {ip});
  }

  predicate DistinctStrings(xs: seq<string>)
  {
    forall i, j :: 0 <= i < j < |xs| ==> xs[i] != xs[j]
  }

  /**
   * As written, the request counts of all cities together are at most one: the first located
   * IP counts itself once, and every later IP is counted under two different IP clauses.
   */
  lemma {:induction false} CityTallyAsWrittenTotal(rows: seq<ApiLogRecord>, fs: seq<Filter>, ips: seq<string>,
                                                   locate: string -> Option<Location>)
    requires DistinctStrings(ips)
    ensures var (t, applied) := CityTallyAsWritten(rows, fs, ips, locate);
      || (applied == fs && SumBy(t, RequestCountOf) == 0)
      || (SumBy(t, RequestCountOf) <= 1 && exists a :: a in ips && IpIs(a) in applied)
  {
    if ips != [] {
      var i := |ips| - 1;
      var prefix := ips[..i];
      var ip := ips[i];
      assert DistinctStrings(prefix);
      assert forall a :: a in prefix ==> a in ips;
      assert ips[..i + 1] == ips;
      CityTallyAsWrittenTotal(rows, fs, prefix, locate);
      CityTallyAsWrittenStep(rows, fs, ips, i, locate);
      var (t, applied) := CityTallyAsWritten(rows, fs, prefix, locate);
      var location := locate(ip);
      if NamedCity(location) {
        var narrowed := applied + [IpIs(ip)];
        var n := CountOf(rows, narrowed, Some(IpAddressColumn));
        BumpTotals(t, CityKey(location.value), CityInfoOf(location.value), n);
        assert IpIs(ip) in narrowed by { assert narrowed[|applied|] == IpIs(ip); }
        if a :| a in prefix && IpIs(a) in applied {
          assert a != ip;
          assert IpIs(a) in narrowed;
          ConflictingIps(rows, narrowed, a, ip, Some(IpAddressColumn));
        } else {
          SingleIpCount(rows, narrowed, ip);
        }
      }
    }
  }

  /** With a fresh clone per IP, every city has at least as many requests as IPs. */
  lemma {:induction false} CityTallyCountsRequests(rows: seq<ApiLogRecord>, fs: seq<Filter>, ips: seq<string>,
                                                   locate: string -> Option<Location>)
    requires forall ip :: ip in ips ==> exists row :: row in rows && AllHold(fs, row) && row.ipAddress == ip
    ensures forall e :: e in CityTally(rows, fs, None, ips, locate) ==> e.requestCount >= e.uniqueIps
  {
    if ips != [] {
      var i := |ips| - 1;
      var ip := ips[i];
      assert forall a :: a in ips[..i] ==> a in ips;
      assert ips[..i + 1] == ips;
      CityTallyCountsRequests(rows, fs, ips[..i], locate);
      CityTallyStep(rows, fs, None, ips, i, locate);
      var location := locate(ip);
      if NamedCity(location) {
        assert ip in ips;
        var row :| row in rows && AllHold(fs, row) && row.ipAddress == ip;
        AllHoldSnoc(fs, IpIs(ip), row);
        assert row in Selected(rows, fs + [IpIs(ip)]);
        BumpKeepsAtLeast(CityTally(rows, fs, None, ips[..i], locate), CityKey(location.value), CityInfoOf(location.value),
                         CountOf(rows, fs + [IpIs(ip)], None));
      }
    }
  }

  /** A bump by at least one keeps every entry's request count at or above its IP count. */
  lemma BumpKeepsAtLeast<L>(t: seq<Entry<L>>, k: string, info: L, n: nat)
    requires n >= 1
    requires forall e :: e in t ==> e.requestCount >= e.uniqueIps
    ensures forall e :: e in Bump(t, k, info, n) ==> e.requestCount >= e.uniqueIps
  {
    var r := Bump(t, k, info, n);
    forall e | e in r ensures e.requestCount >= e.uniqueIps {
      var j :| 0 <= j < |r| && r[j] == e;
      match EntryIndex(t, k)
      case Some(i) =>
        assert t[j] in t;
      case None =>
        if j < |t| { assert t[j] in t; }
    }
  }

  /**
   * `getTopCities` as written: the builder counts distinct IPs and keeps each located IP's
   * clause, so all cities together show at most one request.
   */
  method GetTopCitiesAsWritten(query: Builder, geo: GeoService, now: int) returns (cities: seq<Entry<CityInfo>>)
    requires geo.Valid()
    modifies geo
    ensures geo.Valid()
    ensures |cities| <= 10
    ensures NonIncreasing(cities, RequestCountOf)
    ensures var ips := Deduplicated(IpsOf(Selected(query.rows, query.filters)));
      cities == Take(SortDesc(CityTallyAsWritten(query.rows, query.filters, ips, geo.LocationOf).0, RequestCountOf), 10)
    ensures SumBy(cities, RequestCountOf) <= 1
  {
    var rows, fs := query.rows, query.filters;
    var q := query.Clone();
    q.Distinct(IpAddressColumn);
    var uniqueIps := q.DistinctIps();
    var dict: map<string, Entry<CityInfo>> := map[];
    var order: seq<string> := [];
    var i := 0;
    while i < |uniqueIps|
      invariant 0 <= i <= |uniqueIps|
      invariant geo.Valid()
      invariant q.rows == rows && q.distinctOn == Some(IpAddressColumn)
      invariant q.filters == CityTallyAsWritten(rows, fs, uniqueIps[..i], geo.LocationOf).1
      invariant Mirrors(dict, order, CityTallyAsWritten(rows, fs, uniqueIps[..i], geo.LocationOf).0)
    {
      var ip := uniqueIps[i];
      ghost var tally := CityTallyAsWritten(rows, fs, uniqueIps[..i], geo.LocationOf).0;
      CityTallyAsWrittenStep(rows, fs, uniqueIps, i, geo.LocationOf);
      var location := geo.GetLocationData(ip, now);
      if location.Some? && location.value.city != "Unknown" {
        var cityKey := location.value.city + ", " + location.value.country;
        var info := CityInfo(location.value.city, location.value.country, location.value.countryCode);
        q.Where(IpIs(ip));
        var ipRequests := q.Count();
        if cityKey !in dict {
          BumpNewMirrors(dict, order, tally, cityKey, info, ipRequests);
          dict := dict[cityKey := Entry(cityKey, info, 0, 0)];
          order := order + [cityKey];
        } else {
          BumpExistingMirrors(dict, order, tally, cityKey, info, ipRequests);
        }
        dict := dict[cityKey := Bumped(dict[cityKey], ipRequests)];
      }
      i := i + 1;
    }
    assert uniqueIps[..|uniqueIps|] == uniqueIps;
    var tally := Listed(dict, order);
    ListedMirrors(dict, order, CityTallyAsWritten(rows, fs, uniqueIps, geo.LocationOf).0);
    cities := Take(SortDesc(tally, RequestCountOf), 10);
    TopCitiesAsWrittenAtMostOne(rows, fs, uniqueIps, geo.LocationOf);
  }

  lemma TopCitiesAsWrittenAtMostOne(rows: seq<ApiLogRecord>, fs: seq<Filter>, ips: seq<string>,
                                    locate: string -> Option<Location>)
    requires DistinctStrings(ips)
    ensures var cities := Take(SortDesc(CityTallyAsWritten(rows, fs, ips, locate).0, RequestCountOf), 10);
      NonIncreasing(cities, RequestCountOf) && SumBy(cities, RequestCountOf) <= 1
  {
    var tally := CityTallyAsWritten(rows, fs, ips, locate).0;
    var sorted := SortDesc(tally, RequestCountOf);
    TakeKeepsOrder(sorted, 10, RequestCountOf);
    CityTallyAsWrittenTotal(rows, fs, ips, locate);
    SumBySort(tally, RequestCountOf, RequestCountOf);
    TakeSumAtMost(sorted, 10, RequestCountOf);
  }

  /** Dropping entries never raises the total of non-negative counts. */
  lemma {:induction false} TakeSumAtMost<L>(s: seq<Entry<L>>, n: nat, f: Entry<L> -> int)
    requires forall e :: f(e) >= 0
    ensures SumBy(Take(s, n), f) <= SumBy(s, f)
  {
    var t := Take(s, n);
    assert s == t + s[|t|..];
    SumByAppend(t, s[|t|..], f);
    SumNonNegative(s[|t|..], f);
  }

  lemma {:induction false} SumNonNegative<L>(s: seq<Entry<L>>, f: Entry<L> -> int)
    requires forall e :: f(e) >= 0
    ensures SumBy(s, f) >= 0
  {
    if s != [] {
      SumNonNegative(s[1..], f);
    }
  }

  /**
   * `getTopCities` with each IP's requests counted on a fresh clone of the period's builder:
   * at most ten cities, busiest first, and every city has at least one request per IP.
   */
  method GetTopCities(query: Builder, geo: GeoService, now: int) returns (cities: seq<Entry<CityInfo>>)
    requires geo.Valid()
    modifies geo
    ensures geo.Valid()
    ensures |cities| <= 10
    ensures NonIncreasing(cities, RequestCountOf)
    ensures var ips := Deduplicated(IpsOf(Selected(query.rows, query.filters)));
      cities == Take(SortDesc(CityTally(query.rows, query.filters, query.distinctOn, ips, geo.LocationOf), RequestCountOf), 10)
    ensures query.distinctOn.None? ==> forall e :: e in cities ==> e.requestCount >= e.uniqueIps
  {
    var rows, fs, distinctOn := query.rows, query.filters, query.distinctOn;
    var q := query.Clone();
    q.Distinct(IpAddressColumn);
    var uniqueIps := q.DistinctIps();
    var dict: map<string, Entry<CityInfo>> := map[];
    var order: seq<string> := [];
    var i := 0;
    while i < |uniqueIps|
      invariant 0 <= i <= |uniqueIps|
      invariant geo.Valid()
      invariant Mirrors(dict, order, CityTally(rows, fs, distinctOn, uniqueIps[..i], geo.LocationOf))
    {
      CityTallyStep(rows, fs, distinctOn, uniqueIps, i, geo.LocationOf);
      dict, order := TallyCity(query, geo, uniqueIps[i], now, dict, order,
                               CityTally(rows, fs, distinctOn, uniqueIps[..i], geo.LocationOf));
      i := i + 1;
    }
    assert uniqueIps[..|uniqueIps|] == uniqueIps;
    ListedMirrors(dict, order, CityTally(rows, fs, distinctOn, uniqueIps, geo.LocationOf));
    cities := Take(SortDesc(Listed(dict, order), RequestCountOf), 10);
    TopCitiesOrdered(rows, fs, distinctOn, uniqueIps, geo.LocationOf);
  }

  /**
   * One turn of the `getTopCities` loop: locate the IP and, for a named city, count the IP's
   * requests on a fresh clone and add them to the city's entry.
   */
  method TallyCity(query: Builder, geo: GeoService, ip: string, now: int,
                   dict: map<string, Entry<CityInfo>>, order: seq<string>, ghost tally: seq<Entry<CityInfo>>)
    returns (dict': map<string, Entry<CityInfo>>, order': seq<string>)
    requires geo.Valid() && Mirrors(dict, order, tally)
    modifies geo
    ensures geo.Valid()
    ensures var location := geo.LocationOf(ip);
      Mirrors(dict', order', if NamedCity(location) then
        Bump(tally, CityKey(location.value), CityInfoOf(location.value),
             CountOf(query.rows, query.filters + [IpIs(ip)], query.distinctOn))
      else tally)
  {
    dict', order' := dict, order;
    var location := geo.GetLocationData(ip, now);
    if location.Some? && location.value.city != "Unknown" {
      var cityKey := location.value.city + ", " + location.value.country;
      var info := CityInfo(location.value.city, location.value.country, location.value.countryCode);
      var perIp := query.Clone();
      perIp.Where(IpIs(ip));
      var ipRequests := perIp.Count();
      if cityKey !in dict {
        BumpNewMirrors(dict, order, tally, cityKey, info, ipRequests);
        dict' := dict[cityKey := Entry(cityKey, info, 0, 0)];
        order' := order + [cityKey];
      } else {
        BumpExistingMirrors(dict, order, tally, cityKey, info, ipRequests);
      }
      dict' := dict'[cityKey := Bumped(dict'[cityKey], ipRequests)];
    }
  }

  /** The ten busiest cities of the tally are in non-increasing order, and with plain counting each has at least as many requests as IPs. */
  lemma TopCitiesOrdered(rows: seq<ApiLogRecord>, fs: seq<Filter>, distinctOn: Option<Column>, ips: seq<string>,
                         locate: string -> Option<Location>)
    requires ips == Deduplicated(IpsOf(Selected(rows, fs)))
    ensures var cities := Take(SortDesc(CityTally(rows, fs, distinctOn, ips, locate), RequestCountOf), 10);
      |cities| <= 10 && NonIncreasing(cities, RequestCountOf) &&
      (distinctOn.None? ==> forall e :: e in cities ==> e.requestCount >= e.uniqueIps)
  {
    TakeKeepsOrder(SortDesc(CityTally(rows, fs, distinctOn, ips, locate), RequestCountOf), 10, RequestCountOf);
    if distinctOn.None? {
      TopCitiesCountRequests(rows, fs, ips, locate);
    }
  }

  lemma TopCitiesCountRequests(rows: seq<ApiLogRecord>, fs: seq<Filter>, ips: seq<string>,
                               locate: string -> Option<Location>)
    requires ips == Deduplicated(IpsOf(Selected(rows, fs)))
    ensures forall e :: e in Take(SortDesc(CityTally(rows, fs, None, ips, locate), RequestCountOf), 10) ==>
      e.requestCount >= e.uniqueIps
  {
    forall ip | ip in ips ensures exists row :: row in rows && AllHold(fs, row) && row.ipAddress == ip {
      var sel := Selected(rows, fs);
      var k :| 0 <= k < |IpsOf(sel)| && IpsOf(sel)[k] == ip;
      assert sel[k] in sel;
    }
    CityTallyCountsRequests(rows, fs, ips, locate);
    TakenFrom(CityTally(rows, fs, None, ips, locate), RequestCountOf, 10);
  }

  // ---------------------------------------------------------------------------
  // Geographic statistics

  /** `select ip_address, COUNT(*) ... group by ip_address`, as IP => count pairs. */
  function IpCounts(rows: seq<ApiLogRecord>): (r: seq<(string, nat)>)
    ensures |r| == |GroupBy(rows, IpKey)|
    ensures forall i :: 0 <= i < |r| ==> r[i].1 == |MembersWith(rows, IpKey, r[i].0)| > 0
    ensures forall i, j :: 0 <= i < j < |r| ==> r[i].0 != r[j].0
    ensures forall row :: row in rows ==> exists i :: 0 <= i < |r| && r[i].0 == row.ipAddress
  {
    var gs := GroupBy(rows, IpKey);
    var r := seq(|gs|, i requires 0 <= i < |gs| => (gs[i].key, |gs[i].members|));
    forall row | row in rows ensures exists i :: 0 <= i < |r| && r[i].0 == row.ipAddress {
      var i :| 0 <= i < |gs| && gs[i].key == IpKey(row);
      assert r[i].0 == row.ipAddress;
    }
    r
  }

  datatype GeographicStats = GeographicStats(
    countries: seq<Entry<string>>,
    cities: seq<Entry<CityInfo>>,
    totalCountries: nat,
    mostActiveCountry: Option<Entry<string>>)

  /**
   * `getGeographicStats`: the ten busiest countries, the ten busiest cities, how many
   * countries there are, and the busiest country (or null when there is none).
   */
  method GetGeographicStats(query: Builder, geo: GeoService, now: int) returns (g: GeographicStats)
    requires geo.Valid()
    modifies geo
    ensures geo.Valid()
    ensures |g.countries| <= 10
    ensures NonIncreasing(g.countries, RequestCountOf)
    ensures g.totalCountries == |g.countries| || (g.totalCountries > 10 && |g.countries| == 10)
    ensures g.mostActiveCountry.None? <==> g.totalCountries == 0
    ensures g.mostActiveCountry.Some? ==> g.countries != [] && g.mostActiveCountry.value == g.countries[0]
    ensures SumBy(g.countries, UniqueIpsOf) <= |GroupBy(Selected(query.rows, query.filters), IpKey)|
    ensures var countries := SortDesc(CountryTally(IpCounts(Selected(query.rows, query.filters)), geo.LocationOf), RequestCountOf);
      g.countries == Take(countries, 10) && g.totalCountries == |countries|
    ensures var ips := Deduplicated(IpsOf(Selected(query.rows, query.filters)));
      g.cities == Take(SortDesc(CityTally(query.rows, query.filters, query.distinctOn, ips, geo.LocationOf), RequestCountOf), 10)
  {
    var q := query.Clone();
    var ipCounts := IpCounts(q.Selection());
    var stats := geo.GetCountryStats(ipCounts, now);
    var cities := GetTopCities(q, geo, now);
    var countries := Take(stats, 10);
    TakeKeepsOrder(stats, 10, RequestCountOf);
    TakeSumAtMost(stats, 10, UniqueIpsOf);
    g := GeographicStats(countries, cities, |stats|, if |stats| > 0 then Some(stats[0]) else None);
  }

  // ---------------------------------------------------------------------------
  // The discrepancies on small tables

  /** A request with the given columns and every other column at its default. */
  function SampleRow(ip: string, userAgent: Option<string>, userId: Option<string>, status: int,
                     responseTime: nat, cacheHit: bool): ApiLogRecord
  {
    ApiLogRecord("id", "GET", "/api/tomes", "api/tomes", ip, userAgent, userId, None, status,
                 responseTime, None, JsonValue.JNull, JsonValue.JNull, JsonValue.JNull, cacheHit,
                 Info, None, JsonValue.JNull, JsonValue.JNull, 0)
  }

  /** Two requests of 2 s and 6 s: as written the slow share is 200%, intended 100%. */
  lemma SlowShareExceedsWhole()
    ensures
      var rows := [SampleRow("1.1.1.1", None, None, 200, 200000, false),
                   SampleRow("1.1.1.1", None, None, 200, 600000, false)];
      && CountOf(rows, [Slow], None) == 2
      && CountOf(rows, [Slow, VerySlow], None) == 1
      && Percent(CountOf(rows, [Slow], None), CountOf(rows, [Slow, VerySlow], None)) == 20000
      && Percent(CountOf(rows, [Slow], None), CountOf(rows, [], None)) == 10000
  {
    var rows := [SampleRow("1.1.1.1", None, None, 200, 200000, false),
                 SampleRow("1.1.1.1", None, None, 200, 600000, false)];
    SlowRowsSelected(rows[0], rows[1]);
  }

  /** Which of the two sample requests each threshold selects. */
  lemma SlowRowsSelected(a: ApiLogRecord, b: ApiLogRecord)
    requires a.responseTime == 200000 && b.responseTime == 600000
    ensures Selected([a, b], [Slow]) == [a, b]
    ensures Selected([a, b], [Slow, VerySlow]) == [b]
    ensures Selected([a, b], []) == [a, b]
  {
    assert AllHold([Slow], a) && AllHold([Slow], b);
    var both := [Slow, VerySlow];
    assert both[1] == VerySlow && !Holds(VerySlow, a);
    assert !AllHold(both, a) && AllHold(both, b);
    SelectedPair(a, b, [Slow]);
    SelectedPair(a, b, [Slow, VerySlow]);
    SelectedPair(a, b, []);
  }

  /** The rows of a two-row table that satisfy the clauses, in order. */
  lemma SelectedPair(a: ApiLogRecord, b: ApiLogRecord, fs: seq<Filter>)
    ensures Selected([a, b], fs) == (if AllHold(fs, a) then [a] else []) + (if AllHold(fs, b) then [b] else [])
  {
    var rows := [a, b];
    SelectedStep(rows, fs, 0);
    SelectedStep(rows, fs, 1);
    assert rows[..0] == [] && rows[..2] == rows;
  }

  /** One forbidden request: as written it is not counted, intended once. */
  lemma ForbiddenNotCounted()
    ensures
      var rows := [SampleRow("1.1.1.1", None, None, 403, 100, false)];
      CountOf(rows, [StatusIs(401), StatusIs(403)], None) == 0 && CountOf(rows, [StatusIs(403)], None) == 1
  {
    var rows := [SampleRow("1.1.1.1", None, None, 403, 100, false)];
    ConflictingStatuses(rows, [StatusIs(401), StatusIs(403)], 401, 403, None);
    assert rows[..0] == [];
    assert Selected(rows, [StatusIs(403)]) == rows;
  }

  lemma CurlIsNotBot()
    ensures !ContainsIgnoringCase("curl", "bot")
    ensures ContainsIgnoringCase("curl", "curl")
  {
    assert LowerStr("curl") == "curl";
    assert LowerStr("bot") == "bot";
    assert OccursAt("curl", "curl", 0);
    assert !OccursAt("curl", "bot", 0) by { assert "curl"[0..3] == "cur"; }
    assert !OccursAt("curl", "bot", 1) by { assert "curl"[1..4] == "url"; }
  }

  /** One `curl` request: as written no pattern is listed, intended `curl` once. */
  lemma CurlNotCounted()
    ensures
      var rows := [SampleRow("1.1.1.1", Some("curl"), None, 200, 100, false)];
      BotStatsAccumulated(rows, [], None, BotPatterns) == [] &&
      (exists n :: ("curl", n) in BotStatsPerPattern(rows, [], None, BotPatterns))
  {
    var rows := [SampleRow("1.1.1.1", Some("curl"), None, 200, 100, false)];
    CurlAsWritten(rows);
    CurlIsNotBot();
    assert rows[0] in rows && AllHold([], rows[0]);
    assert "curl" in BotPatterns by { assert BotPatterns[3] == "curl"; }
    BotStatsPerPatternCounts(rows, [], BotPatterns, "curl");
  }

  lemma CurlAsWritten(rows: seq<ApiLogRecord>)
    requires rows == [SampleRow("1.1.1.1", Some("curl"), None, 200, 100, false)]
    ensures BotStatsAccumulated(rows, [], None, BotPatterns) == []
  {
    var bot := UserAgentLike("bot");
    CurlIsNotBot();
    assert rows[..0] == [];
    assert !AllHold([bot], rows[0]) by {
      assert !Holds([bot][0], rows[0]);
    }
    assert Selected(rows, [bot]) == [];
    assert [] + [bot] == [bot];
    AccumulatedStep(rows, [], None, BotPatterns, 0, 0);
    assert BotPatterns[0..] == BotPatterns && BotPatterns[0] == "bot";
    EmptySelectionNoBots(rows, [bot], None, BotPatterns[1..]);
  }

  /** A provider that puts 1.1.1.1 in Lyon and every other address in Porto. */
  function SampleLocate(ip: string): Option<Location>
  {
    Some(Location("Somewhere", "SW", "", if ip == "1.1.1.1" then "Lyon" else "Porto", "UTC", "", None, None))
  }

  /**
   * Two IPs located in two cities: as written the second city shows 0 requests for its one
   * IP; with a clone per IP it shows its one request.
   */
  lemma SecondCityNotCounted()
    ensures
      var rows := [SampleRow("1.1.1.1", None, None, 200, 100, false),
                   SampleRow("2.2.2.2", None, None, 200, 100, false)];
      var t := CityTallyAsWritten(rows, [], ["1.1.1.1", "2.2.2.2"], SampleLocate).0;
      var c := CityTally(rows, [], None, ["1.1.1.1", "2.2.2.2"], SampleLocate);
      |t| == 2 && t[1].requestCount == 0 && t[1].uniqueIps == 1 &&
      |c| == 2 && c[1].requestCount == 1
  {
    var rows := [SampleRow("1.1.1.1", None, None, 200, 100, false),
                 SampleRow("2.2.2.2", None, None, 200, 100, false)];
    SampleCities(["1.1.1.1", "2.2.2.2"]);
    SecondCityAsWritten(rows, ["1.1.1.1", "2.2.2.2"]);
    SecondCityPerIp(rows, ["1.1.1.1", "2.2.2.2"]);
  }

  lemma SampleCities(ips: seq<string>)
    requires ips == ["1.1.1.1", "2.2.2.2"]
    ensures ips[0] != ips[1]
    ensures NamedCity(SampleLocate(ips[0])) && NamedCity(SampleLocate(ips[1]))
    ensures CityKey(SampleLocate(ips[0]).value) != CityKey(SampleLocate(ips[1]).value)
    ensures ips[..0] == [] && ips[..2] == ips
  {
    assert ips[0] != ips[1] by { assert ips[0][0] != ips[1][0]; }
    var lyon, porto := SampleLocate(ips[0]).value, SampleLocate(ips[1]).value;
    assert lyon.city == "Lyon" && porto.city == "Porto";
    assert lyon.city != "Unknown" by { assert |lyon.city| != |"Unknown"|; }
    assert porto.city != "Unknown" by { assert |porto.city| != |"Unknown"|; }
    assert CityKey(lyon) != CityKey(porto) by { assert CityKey(lyon)[0] != CityKey(porto)[0]; }
  }

  lemma SecondCityAsWritten(rows: seq<ApiLogRecord>, ips: seq<string>)
    requires ips == ["1.1.1.1", "2.2.2.2"]
    requires ips[0] != ips[1]
    requires NamedCity(SampleLocate(ips[0])) && NamedCity(SampleLocate(ips[1]))
    requires CityKey(SampleLocate(ips[0]).value) != CityKey(SampleLocate(ips[1]).value)
    requires ips[..0] == [] && ips[..2] == ips
    ensures var t := CityTallyAsWritten(rows, [], ips, SampleLocate).0;
      |t| == 2 && t[1].requestCount == 0 && t[1].uniqueIps == 1
  {
    var lyon, porto := SampleLocate(ips[0]).value, SampleLocate(ips[1]).value;
    CityTallyAsWrittenStep(rows, [], ips, 0, SampleLocate);
    CityTallyAsWrittenStep(rows, [], ips, 1, SampleLocate);
    var (t1, f1) := CityTallyAsWritten(rows, [], ips[..1], SampleLocate);
    assert f1 == [] + [IpIs(ips[0])];
    assert |t1| == 1 && t1[0].key == CityKey(lyon);
    assert EntryIndex(t1, CityKey(porto)) == None;
    assert IpIs(ips[0]) in f1 + [IpIs(ips[1])];
    ConflictingIps(rows, f1 + [IpIs(ips[1])], ips[0], ips[1], Some(IpAddressColumn));
  }

  lemma SecondCityPerIp(rows: seq<ApiLogRecord>, ips: seq<string>)
    requires rows == [SampleRow("1.1.1.1", None, None, 200, 100, false),
                      SampleRow("2.2.2.2", None, None, 200, 100, false)]
    requires ips == ["1.1.1.1", "2.2.2.2"]
    requires ips[0] != ips[1]
    requires NamedCity(SampleLocate(ips[0])) && NamedCity(SampleLocate(ips[1]))
    requires CityKey(SampleLocate(ips[0]).value) != CityKey(SampleLocate(ips[1]).value)
    requires ips[..0] == [] && ips[..2] == ips
    ensures |CityTally(rows, [], None, ips, SampleLocate)| == 2
    ensures CityTally(rows, [], None, ips, SampleLocate)[1].requestCount == 1
  {
    var lyon, porto := SampleLocate(ips[0]).value, SampleLocate(ips[1]).value;
    CityTallyStep(rows, [], None, ips, 0, SampleLocate);
    CityTallyStep(rows, [], None, ips, 1, SampleLocate);
    var c1 := CityTally(rows, [], None, ips[..1], SampleLocate);
    assert |c1| == 1 && c1[0].key == CityKey(lyon);
    assert EntryIndex(c1, CityKey(porto)) == None;
    SelectSecond(rows, ips[1]);
  }

  lemma SelectSecond(rows: seq<ApiLogRecord>, ip: string)
    requires rows == [SampleRow("1.1.1.1", None, None, 200, 100, false),
                      SampleRow("2.2.2.2", None, None, 200, 100, false)]
    requires ip == "2.2.2.2"
    ensures CountOf(rows, [] + [IpIs(ip)], None) == 1
  {
    var second := IpIs(ip);
    assert [] + [second] == [second];
    assert rows[..1] == [rows[0]] && rows[..1][..0] == [] && rows[..|rows| - 1] == rows[..1];
    assert !AllHold([second], rows[0]) by {
      assert rows[0].ipAddress[0] != ip[0];
      assert !Holds([second][0], rows[0]);
    }
    assert AllHold([second], rows[1]);
    assert Selected(rows, [second]) == [rows[1]];
  }

  /** One anonymous cached request: as written the rate is 0%, intended 100%. */
  lemma AnonymousHitsIgnored()
    ensures
      var rows := [SampleRow("1.1.1.1", None, None, 200, 100, true)];
      Percent(CountOf(rows, [UserNotNull, CacheHitIs(true)], Some(UserIdColumn)),
              CountOf(rows, [UserNotNull], Some(UserIdColumn))) == 0 &&
      Percent(CountOf(rows, [CacheHitIs(true)], None), CountOf(rows, [], None)) == 10000
  {
    var rows := [SampleRow("1.1.1.1", None, None, 200, 100, true)];
    assert rows[..0] == [];
    assert !AllHold([UserNotNull], rows[0]) by {
      assert !Holds([UserNotNull][0], rows[0]);
    }
    assert Selected(rows, [UserNotNull]) == [];
    assert ValuesIn([], UserIdColumn) == {};
    assert Selected(rows, [CacheHitIs(true)]) == rows;
    assert Selected(rows, []) == rows;
  }
}
