/**
 * `IpGeolocationService`: where an IP address is, answered from a fixed record for local
 * addresses, from the cache when a non-null answer is cached and fresh, and otherwise from
 * the geolocation provider; and what the summaries derive from locations (per-country
 * tallies, the enrichment of suspicious IPs with a hosting flag and a risk score).
 *
 * The provider is taken to answer the same for an IP every time it is asked: a function from
 * IP to its response. Under that assumption the service's cache is transparent, and every
 * lookup answers what the provider says of that IP.
 */
module Geolocation {
  import opened Wrappers
  import opened Text
  import opened Sorting
  import opened Grouping

  /** `CACHE_TTL`: a day, in seconds. */
  const CacheTtl: nat := 86400

  const LoopbackNames: set<string> := {"127.0.0.1", "::1", "localhost"}

  /**
   * A location record. `org` and `as` are absent (`None`) in the local record; the
   * provider's record always has `org`, and `as` when the provider sent it.
   */
  datatype Location = Location(
    country: string,
    countryCode: string,
    region: string,
    city: string,
    timezone: string,
    isp: string,
    org: Option<string>,
    asn: Option<string>)

  /** The provider's JSON body, with the fields the service reads. */
  datatype ProviderBody = ProviderBody(
    status: string,
    country: string,
    countryCode: string,
    regionName: string,
    city: string,
    timezone: string,
    isp: string,
    org: Option<string>,
    asn: Option<string>)

  /** What one provider call ends in. */
  datatype ProviderResponse =
    | Unsuccessful(httpStatus: int)     // a response whose status is not 2xx
    | Threw                             // an exception while calling or reading it
    | Answered(body: ProviderBody)      // a 2xx response and its decoded body

  /** The record returned for local and non-public addresses. */
  function LocalLocation(timezone: string): Location
  {
    Location("Local", "LOCAL", "Local Network", "Local", timezone, "Local Network", None, None)
  }

  /**
   * `isLocalIp`: one of the loopback names, or an address `filter_var` rejects as private,
   * reserved or not an IP at all (`isPublic` is that test).
   */
  predicate IsLocalIp(ip: string, isPublic: string -> bool)
  {
    ip in LoopbackNames || !isPublic(ip)
  }

  /** `fetchLocationData`, from the outcome of the provider call. */
  function FetchLocationData(response: ProviderResponse): (loc: Option<Location>)
    ensures loc.Some? <==> response.Answered? && response.body.status == "success"
    ensures loc.Some? ==>
      var b := response.body;
      && loc.value.country == b.country && loc.value.countryCode == b.countryCode
      && loc.value.region == b.regionName && loc.value.city == b.city
      && loc.value.timezone == b.timezone && loc.value.isp == b.isp
      && loc.value.org == Some(b.org.GetOr(b.isp)) && loc.value.asn == b.asn
  {
    match response
    case Unsuccessful(_) => None
    case Threw => None
    case Answered(b) =>
      if b.status != "success" then None
      else Some(Location(b.country, b.countryCode, b.regionName, b.city, b.timezone, b.isp,
                         Some(b.org.GetOr(b.isp)), b.asn))
  }

  // ---------------------------------------------------------------------------
  // Hosting providers and risk scores

  const HostingKeywords: seq<string> := [
    "aws", "amazon", "google", "microsoft", "azure", "digitalocean",
    "linode", "vultr", "hetzner", "ovh", "cloudflare", "hosting",
    "datacenter", "server", "cloud", "vps"]

  /** The lower-cased ISP name contains one of the hosting keywords. */
  predicate HostingIsp(isp: string)
  {
    exists k | 0 <= k < |HostingKeywords| :: Contains(LowerStr(isp), HostingKeywords[k])
  }

  /** One row of the suspicious-IP list the summary service builds. */
  datatype SuspiciousIp = SuspiciousIp(
    ip: string,
    requests: nat,
    errors: nat,
    errorRate: string,     // e.g. "33.33%"
    uniqueEndpoints: nat)

  /** `(float)str_replace('%', '', $errorRate) > t`. */
  predicate RateAbove(errorRate: string, t: nat)
  {
    ExceedsWhole(Without(errorRate, '%'), t)
  }

  /** The risk each factor adds: only its highest tier that is exceeded counts. */
  function ErrorRateRisk(errorRate: string): nat
  {
    if RateAbove(errorRate, 50) then 30
    else if RateAbove(errorRate, 25) then 20
    else if RateAbove(errorRate, 10) then 10
    else 0
  }

  function VolumeRisk(requests: nat): nat
  {
    if requests > 1000 then 25 else if requests > 500 then 15 else if requests > 100 then 10 else 0
  }

  function EndpointRisk(uniqueEndpoints: nat): nat
  {
    if uniqueEndpoints > 20 then 20 else if uniqueEndpoints > 10 then 10 else 0
  }

  function IspOf(location: Option<Location>): string
  {
    if location.Some? then location.value.isp else ""
  }

  function CountryCodeOf(location: Option<Location>): string
  {
    if location.Some? then location.value.countryCode else ""
  }

  const RiskyCountries: set<string> := {"CN", "RU", "KP"}

  /** The score as the sum of the factors' contributions, capped at 100. */
  function RiskScore(x: SuspiciousIp, location: Option<Location>): nat
  {
    var sum := ErrorRateRisk(x.errorRate) + VolumeRisk(x.requests) + EndpointRisk(x.uniqueEndpoints)
               + (if HostingIsp(IspOf(location)) then 15 else 0)
               + (if CountryCodeOf(location) in RiskyCountries then 10 else 0);
    if sum < 100 then sum else 100
  }

  /** The enriched row: the original fields plus the location and risk fields. */
  datatype EnrichedIp = EnrichedIp(
    source: SuspiciousIp,
    country: string,
    countryCode: string,
    city: string,
    isp: string,
    isHosting: bool,
    riskScore: nat)

  function Enriched(x: SuspiciousIp, location: Option<Location>): EnrichedIp
  {
    match location
    case None => EnrichedIp(x, "Unknown", "XX", "Unknown", "Unknown", HostingIsp(""), RiskScore(x, location))
    case Some(l) => EnrichedIp(x, l.country, l.countryCode, l.city, l.isp, HostingIsp(l.isp), RiskScore(x, location))
  }

  // ---------------------------------------------------------------------------
  // Per-country tallies

  /** `$location['country'] ?? 'Unknown'` and `$location['country_code'] ?? 'XX'`. */
  function CountryOf(location: Option<Location>): (c: (string, string))
    ensures location.None? ==> c == ("Unknown", "XX")
    ensures location.Some? ==> c == (location.value.country, location.value.countryCode)
  {
    match location
    case None => ("Unknown", "XX")
    case Some(l) => (l.country, l.countryCode)
  }

  /** The `$countries` accumulator after the loop of `getCountryStats`, before sorting. */
  function CountryTally(ips: seq<(string, nat)>, locate: string -> Option<Location>): seq<Entry<string>>
  {
    if ips == [] then []
    else
      var (ip, count) := ips[|ips| - 1];
      var (country, code) := CountryOf(locate(ip));
      Bump(CountryTally(ips[..|ips| - 1], locate), country, code, count)
  }

  function PairCount(p: (string, nat)): int { p.1 }

  /** The request counts add up to the input's, and the IP counts to the number of IPs. */
  lemma {:induction false} CountryTallyTotals(ips: seq<(string, nat)>, locate: string -> Option<Location>)
    ensures SumBy(CountryTally(ips, locate), RequestCountOf) == SumBy(ips, PairCount)
    ensures SumBy(CountryTally(ips, locate), UniqueIpsOf) == |ips|
  {
    if ips != [] {
      var prefix := ips[..|ips| - 1];
      var last := ips[|ips| - 1];
      var c := CountryOf(locate(last.0));
      assert CountryTally(ips, locate) == Bump(CountryTally(prefix, locate), c.0, c.1, last.1);
      CountryTallyTotals(prefix, locate);
      BumpTotals(CountryTally(prefix, locate), c.0, c.1, last.1);
      assert ips == prefix + [last];
      SumByAppend(prefix, [last], PairCount);
      assert SumBy([last], PairCount) == last.1;
    }
  }

  /** The country names the IPs are located in. */
  ghost function CountriesOf(ips: seq<(string, nat)>, locate: string -> Option<Location>): set<string>
  {
    set i | 0 <= i < |ips| :: CountryOf(locate(ips[i].0)).0
  }

  lemma CountriesOfSnoc(ips: seq<(string, nat)>, locate: string -> Option<Location>)
    requires ips != []
    ensures CountriesOf(ips, locate) ==
      CountriesOf(ips[..|ips| - 1], locate) + {CountryOf(locate(ips[|ips| - 1].0)).0}
  {
    var prefix := ips[..|ips| - 1];
    forall n | n in CountriesOf(ips, locate)
      ensures n in CountriesOf(prefix, locate) + {CountryOf(locate(ips[|ips| - 1].0)).0}
    {
      var i :| 0 <= i < |ips| && CountryOf(locate(ips[i].0)).0 == n;
      if i < |prefix| { assert prefix[i] == ips[i]; }
    }
    forall n | n in CountriesOf(prefix, locate) ensures n in CountriesOf(ips, locate) {
      var i :| 0 <= i < |prefix| && CountryOf(locate(prefix[i].0)).0 == n;
      assert ips[i] == prefix[i];
    }
  }

  /** Exactly one entry per country name the IPs are located in. */
  lemma {:induction false} CountryTallyKeys(ips: seq<(string, nat)>, locate: string -> Option<Location>)
    ensures EntryKeysDistinct(CountryTally(ips, locate))
    ensures KeySet(CountryTally(ips, locate)) == CountriesOf(ips, locate)
  {
    if ips != [] {
      CountryTallyKeys(ips[..|ips| - 1], locate);
      CountriesOfSnoc(ips, locate);
    }
  }

  lemma CacheKeyInjective(a: string, b: string)
    requires CacheKey(a) == CacheKey(b)
    ensures a == b
  {
    assert a == CacheKey(a)[12..];
    assert b == CacheKey(b)[12..];
  }

  /** `"ip_location_{$ip}"`. */
  function CacheKey(ip: string): string
  {
    "ip_location_" + ip
  }

  /** A cache entry: the stored value (possibly null) and when it expires. */
  datatype CacheEntry = CacheEntry(value: Option<Location>, expiresAt: int)

  /** `Cache::get` finds a fresh, non-null value: `Cache::remember` treats null as missing. */
  predicate Hit(cache: map<string, CacheEntry>, key: string, now: int)
  {
    key in cache && now < cache[key].expiresAt && cache[key].value.Some?
  }

  class GeoService {
    /** `filter_var($ip, FILTER_VALIDATE_IP, FILTER_FLAG_NO_PRIV_RANGE | FILTER_FLAG_NO_RES_RANGE) !== false`. */
    const isPublic: string -> bool
    /** What the provider answers for an IP. */
    const provider: string -> ProviderResponse
    /** `config('app.timezone')`. */
    const timezone: string
    var cache: map<string, CacheEntry>
    /** The IPs the provider was asked about, in order. */
    var lookups: seq<string>

    /** Every non-null location in the cache is the provider's answer for that IP. */
    ghost predicate Valid()
      reads this
    {
      forall ip :: CacheKey(ip) in cache && cache[CacheKey(ip)].value.Some? ==>
        cache[CacheKey(ip)].value == FetchLocationData(provider(ip))
    }

    constructor(isPublic: string -> bool, provider: string -> ProviderResponse, timezone: string)
      ensures this.isPublic == isPublic && this.provider == provider && this.timezone == timezone
      ensures cache == map[] && lookups == []
      ensures Valid()
    {
      this.isPublic := isPublic;
      this.provider := provider;
      this.timezone := timezone;
      cache := map[];
      lookups := [];
    }

    /** What `getLocationData` answers for `ip`, whatever is cached. */
    function LocationOf(ip: string): Option<Location>
    {
      if IsLocalIp(ip, isPublic) then Some(LocalLocation(timezone))
      else FetchLocationData(provider(ip))
    }

    /**
     * `getLocationData($ip)` at time `now`: local addresses never reach the cache or the
     * provider; a fresh non-null cached value is returned as is; otherwise the provider is
     * asked and its answer, null included, is cached for a day.
     */
    method GetLocationData(ip: string, now: int) returns (loc: Option<Location>)
      requires Valid()
      modifies this
      ensures Valid()
      ensures loc == LocationOf(ip)
      ensures IsLocalIp(ip, isPublic) || Hit(old(cache), CacheKey(ip), now) ==>
        cache == old(cache) && lookups == old(lookups)
      ensures !IsLocalIp(ip, isPublic) && !Hit(old(cache), CacheKey(ip), now) ==>
        cache == old(cache)[CacheKey(ip) := CacheEntry(loc, now + CacheTtl)] &&
        lookups == old(lookups) + [ip]
    {
      if IsLocalIp(ip, isPublic) {
        return Some(LocalLocation(timezone));
      }
      var key := CacheKey(ip);
      if Hit(cache, key, now) {
        return cache[key].value;
      }
      loc := FetchLocationData(provider(ip));
      lookups := lookups + [ip];
      cache := cache[key := CacheEntry(loc, now + CacheTtl)];
      forall other | CacheKey(other) in cache && cache[CacheKey(other)].value.Some?
        ensures cache[CacheKey(other)].value == FetchLocationData(provider(other))
      {
        if CacheKey(other) == key {
          CacheKeyInjective(other, ip);
        }
      }
    }

    /** `isHostingProvider`: the keywords are tried in order and the first hit answers. */
    method IsHostingProvider(isp: string) returns (hosting: bool)
      ensures hosting <==> HostingIsp(isp)
    {
      var ispLower := LowerStr(isp);
      var k := 0;
      while k < |HostingKeywords|
        invariant 0 <= k <= |HostingKeywords|
        invariant forall j :: 0 <= j < k ==> !Contains(ispLower, HostingKeywords[j])
      {
        if Contains(ispLower, HostingKeywords[k]) {
          return true;
        }
        k := k + 1;
      }
      return false;
    }

    /** `calculateRiskScore`: the score accumulated factor by factor, then capped. */
    method CalculateRiskScore(x: SuspiciousIp, location: Option<Location>) returns (score: nat)
      ensures score == RiskScore(x, location)
      ensures score <= 100
    {
      score := 0;
      var errorRate := Without(x.errorRate, '%');
      if ExceedsWhole(errorRate, 50) {
        score := score + 30;
      } else if ExceedsWhole(errorRate, 25) {
        score := score + 20;
      } else if ExceedsWhole(errorRate, 10) {
        score := score + 10;
      }
      if x.requests > 1000 {
        score := score + 25;
      } else if x.requests > 500 {
        score := score + 15;
      } else if x.requests > 100 {
        score := score + 10;
      }
      if x.uniqueEndpoints > 20 {
        score := score + 20;
      } else if x.uniqueEndpoints > 10 {
        score := score + 10;
      }
      var hosting := IsHostingProvider(IspOf(location));
      if hosting {
        score := score + 15;
      }
      if CountryCodeOf(location) in RiskyCountries {
        score := score + 10;
      }
      score := if score < 100 then score else 100;
    }

    /** `enrichSuspiciousIps`: every row keeps its fields, in order, and gains the location ones. */
    method EnrichSuspiciousIps(xs: seq<SuspiciousIp>, now: int) returns (r: seq<EnrichedIp>)
      requires Valid()
      modifies this
      ensures Valid()
      ensures |r| == |xs|
      ensures forall i :: 0 <= i < |xs| ==> r[i] == Enriched(xs[i], LocationOf(xs[i].ip))
      ensures forall i :: 0 <= i < |xs| ==> r[i].source == xs[i]
    {
      r := [];
      var i := 0;
      while i < |xs|
        invariant 0 <= i <= |xs|
        invariant Valid()
        invariant |r| == i
        invariant forall j :: 0 <= j < i ==> r[j] == Enriched(xs[j], LocationOf(xs[j].ip))
      {
        var location := GetLocationData(xs[i].ip, now);
        var hosting := IsHostingProvider(IspOf(location));
        var risk := CalculateRiskScore(xs[i], location);
        var row := match location
          case None => EnrichedIp(xs[i], "Unknown", "XX", "Unknown", "Unknown", hosting, risk)
          case Some(l) => EnrichedIp(xs[i], l.country, l.countryCode, l.city, l.isp, hosting, risk);
        r := r + [row];
        i := i + 1;
      }
    }

    /**
     * `getCountryStats($ips)`: the `$countries` dictionary filled IP by IP, then ordered by
     * request count, most first. `ips` lists the IP => count pairs in array order.
     */
    method GetCountryStats(ips: seq<(string, nat)>, now: int) returns (stats: seq<Entry<string>>)
      requires Valid()
      modifies this
      ensures Valid()
      ensures stats == SortDesc(CountryTally(ips, LocationOf), RequestCountOf)
      ensures NonIncreasing(stats, RequestCountOf)
      ensures SumBy(stats, RequestCountOf) == SumBy(ips, PairCount)
      ensures SumBy(stats, UniqueIpsOf) == |ips|
    {
      var countries: map<string, Entry<string>> := map[];
      var order: seq<string> := [];
      var i := 0;
      while i < |ips|
        invariant 0 <= i <= |ips|
        invariant Valid()
        invariant Mirrors(countries, order, CountryTally(ips[..i], LocationOf))
      {
        var (ip, count) := ips[i];
        ghost var tally := CountryTally(ips[..i], LocationOf);
        var location := GetLocationData(ip, now);
        var country := if location.Some? then location.value.country else "Unknown";
        var countryCode := if location.Some? then location.value.countryCode else "XX";
        assert CountryTally(ips[..i + 1], LocationOf) == Bump(tally, country, countryCode, count) by {
          assert ips[..i + 1][..i] == ips[..i];
          assert ips[..i + 1][i] == (ip, count);
          assert CountryOf(LocationOf(ip)) == (country, countryCode);
        }
        if country !in countries {
          BumpNewMirrors(countries, order, tally, country, countryCode, count);
          countries := countries[country := Entry(country, countryCode, 0, 0)];
          order := order + [country];
        } else {
          BumpExistingMirrors(countries, order, tally, country, countryCode, count);
        }
        countries := countries[country := Bumped(countries[country], count)];
        i := i + 1;
      }
      assert ips[..|ips|] == ips;
      var tally := seq(|order|, j requires 0 <= j < |order| => countries[order[j]]);
      assert tally == CountryTally(ips, LocationOf);
      stats := SortDesc(tally, RequestCountOf);
      CountryTallyTotals(ips, LocationOf);
      SumBySort(tally, RequestCountOf, RequestCountOf);
      SumBySort(tally, RequestCountOf, UniqueIpsOf);
    }
  }

  // ---------------------------------------------------------------------------
  // The error rate as the summary writes it

  lemma {:induction false} WithoutAbsent(s: string, c: char)
    requires c !in s
    ensures Without(s, c) == s
  {
    if s != [] {
      WithoutAbsent(s[1..], c);
    }
  }

  lemma {:induction false} WithoutConcat(a: string, b: string, c: char)
    ensures Without(a + b, c) == Without(a, c) + Without(b, c)
  {
    if a != [] {
      assert (a + b)[1..] == a[1..] + b;
      WithoutConcat(a[1..], b, c);
    } else {
      assert a + b == b;
    }
  }

  lemma NoPercentInHundredths(k: nat)
    ensures '%' !in HundredthsToString(k)
  {
    var w := NatToString(k / 100);
    assert forall i :: 0 <= i < |w| ==> IsDigit(w[i]);
  }

  /**
   * The rate the summary writes (`round(e / n * 100, 2) . '%'`, here `k` hundredths of a
   * percent) falls in the tier the score means: above 50%, 25% or 10%.
   */
  lemma ErrorRateRiskOfRate(k: nat)
    ensures ErrorRateRisk(HundredthsToString(k) + "%") ==
      if k > 5000 then 30 else if k > 2500 then 20 else if k > 1000 then 10 else 0
  {
    var s := HundredthsToString(k);
    NoPercentInHundredths(k);
    WithoutConcat(s, "%", '%');
    WithoutAbsent(s, '%');
    assert Without("%", '%') == "";
    assert Without(s + "%", '%') == s;
    HundredthsExceed(k, 50);
    HundredthsExceed(k, 25);
    HundredthsExceed(k, 10);
  }

  /** The factors' maxima add up to exactly 100: the cap never lowers a score. */
  lemma CapNeverBinds(x: SuspiciousIp, location: Option<Location>)
    ensures RiskScore(x, location) ==
      ErrorRateRisk(x.errorRate) + VolumeRisk(x.requests) + EndpointRisk(x.uniqueEndpoints)
      + (if HostingIsp(IspOf(location)) then 15 else 0)
      + (if CountryCodeOf(location) in RiskyCountries then 10 else 0)
  {
  }
}
