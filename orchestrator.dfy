/**
 * The API orchestrator: it forwards requests to the MCSI service and the
 * yield-forecast service, trying each service's in-cluster address first and
 * its local address only when the first call raises.
 *
 * The network is an oracle: `get(url)` and `post(url, body)` are the replies
 * the services would give, so a reply depends only on the address and the
 * request. Timeouts appear only as constants.
 */
module Orchestrator {
  import opened Common
  import opened Text

  const MCSI_URL := "http://mcsi:8000"
  const YIELD_URL := "http://yield:8001"
  const MCSI_URL_LOCAL := "http://localhost:8000"
  const YIELD_URL_LOCAL := "http://localhost:8001"

  /** Client timeouts in seconds for the health check, the timeseries read, the single read, the forecast request and its POST. */
  const HEALTH_TIMEOUT: real := 5.0
  const TIMESERIES_TIMEOUT: real := 15.0
  const MCSI_TIMEOUT: real := 10.0
  const FORECAST_TIMEOUT: real := 30.0
  const FORECAST_POST_TIMEOUT: real := 15.0

  /** Weeks of history the forecast pipeline asks for, and the season it forecasts. */
  const FORECAST_HISTORY_LIMIT := 30
  const SEASON_YEAR := 2025

  /** Defaults for forecast fields the yield service leaves out. */
  const DEFAULT_UNCERTAINTY: real := 0.31
  const DEFAULT_PRIMARY_DRIVER := "unknown"
  const DEFAULT_MODEL_R2: real := 0.835

  /** Defaults for indicators a timeseries item leaves out. */
  const DEFAULT_NDVI: real := 0.5

  // ---------------------------------------------------------------------------
  // Calls with fallback
  // ---------------------------------------------------------------------------

  /** One HTTP call: it raised, or it answered with a status and a body (`None`: not decodable). */
  datatype Reply<T> = TransportError | Response(status: int, body: Option<T>)

  /** Why a call chain failed: both addresses raised, a non-2xx status, an undecodable body, no history. */
  datatype Failure = Unreachable | BadStatus(status: int) | MalformedBody | NoHistory

  /** What the orchestrator answers on failure: 503 with a fixed detail, or 500 carrying the cause. */
  datatype HttpError = ServiceUnavailable(detail: string) | InternalError(cause: Failure) {
    function Code(): int {
      if ServiceUnavailable? then 503 else 500
    }
  }

  /** `raise_for_status()` passes exactly the 2xx statuses. */
  predicate IsSuccess(status: int) {
    200 <= status < 300
  }

  /** The reply the source ends up with: the primary's, unless the primary raised. */
  function WithFallback<T>(primary: Reply<T>, fallback: Reply<T>): Reply<T> {
    if primary.TransportError? then fallback else primary
  }

  /** `raise_for_status()` then `.json()` on the reply the fallback rule selects. */
  function Fetch<T>(primary: Reply<T>, fallback: Reply<T>): (r: Result<T, Failure>)
    ensures r.Ok? <==> (primary.Response? && IsSuccess(primary.status) && primary.body.Some?)
                       || (primary.TransportError? && fallback.Response? && IsSuccess(fallback.status) && fallback.body.Some?)
    ensures r == Err(Unreachable) <==> primary.TransportError? && fallback.TransportError?
    ensures primary.Response? && !IsSuccess(primary.status) ==> r == Err(BadStatus(primary.status))
    ensures primary.TransportError? && fallback.Response? && IsSuccess(fallback.status) && fallback.body.Some?
            ==> r == Ok(fallback.body.value)
  {
    match WithFallback(primary, fallback)
    case TransportError => Err(Unreachable)
    case Response(status, body) =>
      if !IsSuccess(status) then Err(BadStatus(status))
      else if body.None? then Err(MalformedBody)
      else Ok(body.value)
  }

  /** Calls the primary address and, only if that raised, the fallback address; reports the addresses contacted. */
  method GetWithFallback<T>(get: string -> Reply<T>, url: string, urlLocal: string) returns (reply: Reply<T>, contacted: seq<string>)
    ensures reply == WithFallback(get(url), get(urlLocal))
    ensures contacted == if get(url).TransportError? then [url, urlLocal] else [url]
  {
    reply := get(url);
    contacted := [url];
    if reply.TransportError? {
      reply := get(urlLocal);
      contacted := contacted + [urlLocal];
    }
  }

  /** `raise_for_status()` then `.json()` on the reply the fallback rule selected. */
  method RaiseForStatus<T>(reply: Reply<T>, ghost primary: Reply<T>, ghost fallback: Reply<T>) returns (r: Result<T, Failure>)
    requires reply == WithFallback(primary, fallback)
    ensures r == Fetch(primary, fallback)
  {
    if reply.TransportError? {
      return Err(Unreachable);
    }
    if !IsSuccess(reply.status) {
      return Err(BadStatus(reply.status));
    }
    if reply.body.None? {
      return Err(MalformedBody);
    }
    r := Ok(reply.body.value);
  }

  // ---------------------------------------------------------------------------
  // Health
  // ---------------------------------------------------------------------------

  /** A dependency is healthy when its primary answers 200, or the primary raises and the fallback answers 200. */
  predicate Reachable<T>(primary: Reply<T>, fallback: Reply<T>) {
    || (primary.Response? && primary.status == 200)
    || (primary.TransportError? && fallback.Response? && fallback.status == 200)
  }

  /** The health endpoint's answer: the two dependency flags, or the error that stopped the check itself. */
  datatype HealthReport = Aggregated(mcsiHealthy: bool, yieldHealthy: bool) | CheckFailed(error: string) {

    /** The top-level `status` field. */
    function Status(): string {
      match this
      case Aggregated(m, y) => if m && y then "healthy" else "degraded"
      case CheckFailed(_) => "unhealthy"
    }
  }

  /** The per-service label under `services`. */
  function ServiceLabel(healthy: bool): string {
    if healthy then "healthy" else "unhealthy"
  }

  /**
   * `health_check`: two flags start false and are set from the primary's
   * status, or from the fallback's when the primary raised. `clientError` is
   * the exception, if any, raised while setting up the client.
   */
  method HealthCheck(clientError: Option<string>, get: string -> Reply<()>) returns (report: HealthReport)
    ensures clientError.Some? ==> report == CheckFailed(clientError.value)
    ensures clientError.None? ==> report == Aggregated(
      Reachable(get(MCSI_URL + "/health"), get(MCSI_URL_LOCAL + "/health")),
      Reachable(get(YIELD_URL + "/health"), get(YIELD_URL_LOCAL + "/health")))
  {
    if clientError.Some? {
      return CheckFailed(clientError.value);
    }
    var mcsiHealth := false;
    var yieldHealth := false;
    var r := get(MCSI_URL + "/health");
    if r.Response? {
      mcsiHealth := r.status == 200;
    } else {
      r := get(MCSI_URL_LOCAL + "/health");
      if r.Response? {
        mcsiHealth := r.status == 200;
      }
    }
    r := get(YIELD_URL + "/health");
    if r.Response? {
      yieldHealth := r.status == 200;
    } else {
      r := get(YIELD_URL_LOCAL + "/health");
      if r.Response? {
        yieldHealth := r.status == 200;
      }
    }
    report := Aggregated(mcsiHealth, yieldHealth);
  }

  /** `healthy` exactly when both flags hold, `degraded` otherwise; each service label mirrors its own flag. */
  lemma HealthStatusRule(m: bool, y: bool)
    ensures Aggregated(m, y).Status() == "healthy" <==> m && y
    ensures Aggregated(m, y).Status() == "degraded" <==> !(m && y)
    ensures ServiceLabel(m) == "healthy" <==> m
  {
  }

  /** A primary that answers with anything but 200 is not retried on the fallback: the service counts as down. */
  lemma NonOkPrimaryIsNotRetried<T>(primary: Reply<T>, fallback: Reply<T>)
    requires primary.Response? && primary.status != 200
    ensures !Reachable(primary, fallback)
    ensures WithFallback(primary, fallback) == primary
  {
  }

  // ---------------------------------------------------------------------------
  // Timeseries URL
  // ---------------------------------------------------------------------------

  /** FastAPI's `if start_date:`: an absent or empty string is skipped. */
  predicate Truthy(s: Option<string>) {
    s.Some? && s.value != ""
  }

  datatype Param = Param(key: string, value: string)

  /** `f"{limit}"`: the decimal number, or `None` when the caller passed no limit explicitly as null. */
  function LimitText(limit: Option<int>): (s: string)
    ensures forall k :: 0 <= k < |s| ==> s[k] != '&'
    ensures limit.Some? ==> s == IntToString(limit.value)
  {
    if limit.None? then "None" else IntToString(limit.value)
  }

  /** Adds `key=value` when the value is truthy. */
  function WithOptional(params: seq<Param>, key: string, value: Option<string>): seq<Param> {
    if Truthy(value) then params + [Param(key, value.value)] else params
  }

  /** The query the timeseries URL carries: `limit` always, then each date that was given. */
  function TimeseriesQuery(startDate: Option<string>, endDate: Option<string>, limit: Option<int>): seq<Param> {
    WithOptional(WithOptional([Param("limit", LimitText(limit))], "start_date", startDate), "end_date", endDate)
  }

  function RenderParams(params: seq<Param>): seq<string> {
    seq(|params|, i requires 0 <= i < |params| => params[i].key + "=" + params[i].value)
  }

  lemma RenderParamsAppend(params: seq<Param>, p: Param)
    ensures RenderParams(params + [p]) == RenderParams(params) + [p.key + "=" + p.value]
  {
    var a, b := RenderParams(params + [p]), RenderParams(params) + [p.key + "=" + p.value];
    assert |a| == |b|;
    forall i | 0 <= i < |a| ensures a[i] == b[i] {
      if i < |params| {
        assert (params + [p])[i] == params[i];
      }
    }
  }

  /** `?k1=v1&k2=v2...` */
  function RenderQuery(params: seq<Param>): string {
    "?" + Join("&", RenderParams(params))
  }

  function ParseParam(part: string): Param {
    var k := IndexOf('=', part);
    Param(part[..k], if k < |part| then part[k + 1..] else "")
  }

  /** Reads the parameters back from a rendered query string. */
  function ParseQuery(query: string): seq<Param>
    requires StartsWith(query, "?")
  {
    var parts := SplitOn('&', query[1..]);
    seq(|parts|, i requires 0 <= i < |parts| => ParseParam(parts[i]))
  }

  predicate WellFormedParam(p: Param) {
    '&' !in p.key && '=' !in p.key && '&' !in p.value
  }

  /** A query whose keys hold neither `&` nor `=` and whose values hold no `&` reads back as it was written. */
  lemma QueryRoundTrip(params: seq<Param>)
    requires |params| > 0
    requires forall i :: 0 <= i < |params| ==> WellFormedParam(params[i])
    ensures StartsWith(RenderQuery(params), "?")
    ensures ParseQuery(RenderQuery(params)) == params
  {
    var rendered := RenderParams(params);
    forall i | 0 <= i < |rendered| ensures '&' !in rendered[i] {
      assert rendered[i] == params[i].key + "=" + params[i].value;
    }
    SplitOnJoin('&', rendered);
    var q := RenderQuery(params);
    assert q[1..] == Join("&", rendered);
    var parts := SplitOn('&', q[1..]);
    assert parts == rendered;
    forall i | 0 <= i < |params| ensures ParseParam(parts[i]) == params[i] {
      var p := params[i];
      FirstIndex('=', p.key, "=" + p.value);
      assert parts[i] == p.key + ("=" + p.value);
      assert parts[i][..|p.key|] == p.key;
      assert parts[i][|p.key| + 1..] == p.value;
    }
  }

  /** `limit` leads the query, `start_date` follows it when given, and `end_date` closes it when given. */
  lemma TimeseriesQueryShape(startDate: Option<string>, endDate: Option<string>, limit: Option<int>)
    ensures var q := TimeseriesQuery(startDate, endDate, limit);
      && q[0] == Param("limit", LimitText(limit))
      && |q| == 1 + (if Truthy(startDate) then 1 else 0) + (if Truthy(endDate) then 1 else 0)
      && (Truthy(startDate) ==> q[1] == Param("start_date", startDate.value))
      && (Truthy(endDate) ==> q[|q| - 1] == Param("end_date", endDate.value))
  {
  }

  /** Dates without `&` make a query that reads back as it was written. */
  lemma TimeseriesQueryRoundTrip(startDate: Option<string>, endDate: Option<string>, limit: Option<int>)
    requires startDate.Some? ==> '&' !in startDate.value
    requires endDate.Some? ==> '&' !in endDate.value
    ensures ParseQuery(RenderQuery(TimeseriesQuery(startDate, endDate, limit))) == TimeseriesQuery(startDate, endDate, limit)
  {
    var q := TimeseriesQuery(startDate, endDate, limit);
    var limitKey, startKey, endKey := "limit", "start_date", "end_date";
    assert forall k :: 0 <= k < |limitKey| ==> limitKey[k] != '&' && limitKey[k] != '=';
    assert forall k :: 0 <= k < |startKey| ==> startKey[k] != '&' && startKey[k] != '=';
    assert forall k :: 0 <= k < |endKey| ==> endKey[k] != '&' && endKey[k] != '=';
    forall i | 0 <= i < |q| ensures WellFormedParam(q[i]) {
      assert q[i].key in {limitKey, startKey, endKey};
    }
    QueryRoundTrip(q);
  }

  function TimeseriesPath(fips: string): string {
    "/mcsi/county/" + fips + "/timeseries"
  }

  /** The timeseries URL on one base address: path, then the rendered query. */
  function TimeseriesUrlOf(base: string, fips: string, startDate: Option<string>, endDate: Option<string>, limit: Option<int>): string {
    base + TimeseriesPath(fips) + RenderQuery(TimeseriesQuery(startDate, endDate, limit))
  }

  /** The primary and the fallback URL differ only in their base address. */
  lemma FallbackUrlSameQuery(fips: string, startDate: Option<string>, endDate: Option<string>, limit: Option<int>)
    ensures var primary := TimeseriesUrlOf(MCSI_URL, fips, startDate, endDate, limit);
      var fallback := TimeseriesUrlOf(MCSI_URL_LOCAL, fips, startDate, endDate, limit);
      && StartsWith(primary, MCSI_URL) && StartsWith(fallback, MCSI_URL_LOCAL)
      && primary[|MCSI_URL|..] == fallback[|MCSI_URL_LOCAL|..]
  {
    var suffix := TimeseriesPath(fips) + RenderQuery(TimeseriesQuery(startDate, endDate, limit));
    OnBase(MCSI_URL, suffix);
    OnBase(MCSI_URL_LOCAL, suffix);
  }

  lemma OnBase(base: string, suffix: string)
    ensures StartsWith(base + suffix, base) && (base + suffix)[|base|..] == suffix
  {
  }

  /** The URL `get_mcsi_timeseries` builds with `+=`: path, `?limit=`, then `&start_date=` and `&end_date=` when given. */
  method TimeseriesUrl(base: string, fips: string, startDate: Option<string>, endDate: Option<string>, limit: Option<int>)
    returns (url: string)
    ensures url == TimeseriesUrlOf(base, fips, startDate, endDate, limit)
  {
    url := base + "/mcsi/county/" + fips + "/timeseries?limit=" + LimitText(limit);
    ghost var prefix := base + TimeseriesPath(fips);
    ghost var params := [Param("limit", LimitText(limit))];
    UrlStart(base, fips, LimitText(limit));
    url := AppendOptional(prefix, params, url, "start_date", startDate);
    params := WithOptional(params, "start_date", startDate);
    url := AppendOptional(prefix, params, url, "end_date", endDate);
  }

  /** One `if value: url += f"&{key}={value}"` step. */
  method AppendOptional(ghost prefix: string, ghost params: seq<Param>, url: string, key: string, value: Option<string>)
    returns (next: string)
    requires |params| > 0 && url == prefix + RenderQuery(params)
    ensures next == prefix + RenderQuery(WithOptional(params, key, value))
  {
    next := url;
    if Truthy(value) {
      next := url + "&" + key + "=" + value.value;
      AppendRendered(params, Param(key, value.value));
    }
  }

  lemma UrlStart(base: string, fips: string, limitText: string)
    ensures base + "/mcsi/county/" + fips + "/timeseries?limit=" + limitText
         == base + TimeseriesPath(fips) + RenderQuery([Param("limit", limitText)])
  {
    RenderSingle(Param("limit", limitText));
  }

  lemma RenderSingle(p: Param)
    ensures RenderQuery([p]) == "?" + p.key + "=" + p.value
  {
    assert RenderParams([p]) == [p.key + "=" + p.value];
  }

  /** Appending one parameter to a non-empty query appends `&key=value`. */
  lemma AppendRendered(params: seq<Param>, p: Param)
    requires |params| > 0
    ensures RenderQuery(params + [p]) == RenderQuery(params) + "&" + p.key + "=" + p.value
  {
    JoinAppend("&", RenderParams(params), p.key + "=" + p.value);
    RenderParamsAppend(params, p);
  }

  /** `get_mcsi_timeseries`: the fallback URL carries the same path and query on the local address. */
  method GetMcsiTimeseries<T>(fips: string, startDate: Option<string>, endDate: Option<string>, limit: Option<int>, get: string -> Reply<T>)
    returns (r: Result<T, HttpError>)
    ensures var fetched := Fetch(get(TimeseriesUrlOf(MCSI_URL, fips, startDate, endDate, limit)),
                                 get(TimeseriesUrlOf(MCSI_URL_LOCAL, fips, startDate, endDate, limit)));
      && (fetched.Ok? ==> r == Ok(fetched.value))
      && (fetched.Err? ==> r == Err(ServiceUnavailable("MCSI unavailable")))
  {
    var url := TimeseriesUrl(MCSI_URL, fips, startDate, endDate, limit);
    var response := get(url);
    if response.TransportError? {
      var urlLocal := TimeseriesUrl(MCSI_URL_LOCAL, fips, startDate, endDate, limit);
      response := get(urlLocal);
    }
    var fetched := RaiseForStatus(response,
      get(TimeseriesUrlOf(MCSI_URL, fips, startDate, endDate, limit)),
      get(TimeseriesUrlOf(MCSI_URL_LOCAL, fips, startDate, endDate, limit)));
    if fetched.Err? {
      return Err(ServiceUnavailable("MCSI unavailable"));
    }
    r := Ok(fetched.value);
  }

  /** `get_mcsi`: one county's current index, with the same fallback rule. */
  method GetMcsi<T>(fips: string, get: string -> Reply<T>) returns (r: Result<T, HttpError>)
    ensures var fetched := Fetch(get(MCSI_URL + "/mcsi/county/" + fips), get(MCSI_URL_LOCAL + "/mcsi/county/" + fips));
      && (fetched.Ok? ==> r == Ok(fetched.value))
      && (fetched.Err? ==> r == Err(ServiceUnavailable("MCSI unavailable")))
  {
    var response, _ := GetWithFallback(get, MCSI_URL + "/mcsi/county/" + fips, MCSI_URL_LOCAL + "/mcsi/county/" + fips);
    var fetched := RaiseForStatus(response, get(MCSI_URL + "/mcsi/county/" + fips), get(MCSI_URL_LOCAL + "/mcsi/county/" + fips));
    if fetched.Err? {
      return Err(ServiceUnavailable("MCSI unavailable"));
    }
    r := Ok(fetched.value);
  }

  // ---------------------------------------------------------------------------
  // Yield forecast pipeline
  // ---------------------------------------------------------------------------

  /** One week of history from the MCSI service; either field may be absent. */
  datatype Item = Item(weekOfSeason: Option<int>, indicators: Option<map<string, real>>)

  /** The decoded timeseries body: a list of items, or a single object. */
  datatype Timeseries = ItemList(items: seq<Item>) | SingleItem(item: Item)

  /** A non-list body is wrapped into a one-element list. */
  function Items(ts: Timeseries): (items: seq<Item>)
    ensures ts.SingleItem? ==> items == [ts.item]
    ensures ts.ItemList? ==> items == ts.items
  {
    match ts
    case ItemList(items) => items
    case SingleItem(item) => [item]
  }

  /** `item.get("week_of_season", 0)` */
  function WeekOf(item: Item): int {
    item.weekOfSeason.GetOr(0)
  }

  /** `max(item.get("week_of_season", 0) for item in timeseries)` */
  function MaxWeek(items: seq<Item>): (m: int)
    requires |items| > 0
    ensures exists i :: 0 <= i < |items| && WeekOf(items[i]) == m
    ensures forall i :: 0 <= i < |items| ==> WeekOf(items[i]) <= m
  {
    if |items| == 1 then WeekOf(items[0])
    else
      var rest := MaxWeek(items[1..]);
      assert forall i :: 1 <= i < |items| ==> items[i] == items[1..][i - 1];
      if WeekOf(items[0]) >= rest then WeekOf(items[0]) else rest
  }

  /** `week if week else max(...)`: a week of 0 counts as absent, and `max` of no items raises. */
  function SelectWeek(week: Option<int>, items: seq<Item>): (r: Result<int, Failure>)
    ensures r.Err? <==> (week.None? || week.value == 0) && items == []
    ensures r.Err? ==> r.error == NoHistory
    ensures week.Some? && week.value != 0 ==> r == Ok(week.value)
    ensures (week.None? || week.value == 0) && items != [] ==>
      r.Ok? && (forall i :: 0 <= i < |items| ==> WeekOf(items[i]) <= r.value)
      && (exists i :: 0 <= i < |items| && WeekOf(items[i]) == r.value)
  {
    if week.Some? && week.value != 0 then Ok(week.value)
    else if items == [] then Err(NoHistory)
    else Ok(MaxWeek(items))
  }

  /** `[item for item in timeseries if item.get("week_of_season", 0) <= current_week]` */
  function UpToWeek(items: seq<Item>, currentWeek: int): (kept: seq<Item>)
    ensures |kept| <= |items|
  {
    if items == [] then []
    else (if WeekOf(items[0]) <= currentWeek then [items[0]] else []) + UpToWeek(items[1..], currentWeek)
  }

  /** The filter keeps exactly the items at or before the week. */
  lemma {:induction false} UpToWeekMembers(items: seq<Item>, currentWeek: int)
    ensures forall x :: x in UpToWeek(items, currentWeek) <==> x in items && WeekOf(x) <= currentWeek
  {
    if items != [] {
      UpToWeekMembers(items[1..], currentWeek);
      assert items == [items[0]] + items[1..];
    }
  }

  /** Filtering keeps the original order: it distributes over concatenation. */
  lemma {:induction false} UpToWeekAppend(a: seq<Item>, b: seq<Item>, currentWeek: int)
    ensures UpToWeek(a + b, currentWeek) == UpToWeek(a, currentWeek) + UpToWeek(b, currentWeek)
  {
    if a == [] {
      assert a + b == b;
    } else {
      var head := if WeekOf(a[0]) <= currentWeek then [a[0]] else [];
      assert (a + b)[0] == a[0];
      assert (a + b)[1..] == a[1..] + b;
      assert UpToWeek(a + b, currentWeek) == head + UpToWeek(a[1..] + b, currentWeek);
      assert UpToWeek(a, currentWeek) == head + UpToWeek(a[1..], currentWeek);
      UpToWeekAppend(a[1..], b, currentWeek);
    }
  }

  /** When every item is within the week, nothing is filtered out; in particular for the maximal week. */
  lemma {:induction false} UpToWeekKeepsAll(items: seq<Item>, currentWeek: int)
    requires forall i :: 0 <= i < |items| ==> WeekOf(items[i]) <= currentWeek
    ensures UpToWeek(items, currentWeek) == items
  {
    if items != [] {
      var rest := items[1..];
      assert forall i :: 0 <= i < |rest| ==> WeekOf(rest[i]) <= currentWeek by {
        forall i | 0 <= i < |rest| ensures WeekOf(rest[i]) <= currentWeek {
          assert rest[i] == items[i + 1];
        }
      }
      UpToWeekKeepsAll(rest, currentWeek);
      assert UpToWeek(items, currentWeek) == [items[0]] + UpToWeek(rest, currentWeek);
      assert items == [items[0]] + rest;
    }
  }

  /** The five fields sent for one week. */
  datatype WeekFeatures = WeekFeatures(
    waterDeficitMean: real,
    lstDaysAbove32C: int,
    ndviMean: real,
    vpdMean: real,
    prSum: real)

  /** Python's `int(x)` on a float: truncation toward zero. */
  function Truncate(x: real): (n: int)
    ensures x >= 0.0 ==> n as real <= x < n as real + 1.0
    ensures x < 0.0 ==> n as real - 1.0 < x <= n as real
  {
    if x >= 0.0 then x.Floor else -((-x).Floor)
  }

  function Lookup(m: map<string, real>, key: string, default: real): real {
    if key in m then m[key] else default
  }

  /** The five fields with their defaults; the heat field is `int(lst_mean)`, precipitation comes from `precipitation_mean`. */
  function Features(item: Item): (f: WeekFeatures)
    ensures var ind := item.indicators.GetOr(map[]);
      && f.waterDeficitMean == Lookup(ind, "water_deficit_mean", 0.0)
      && f.lstDaysAbove32C == Truncate(Lookup(ind, "lst_mean", 0.0))
      && f.ndviMean == Lookup(ind, "ndvi_mean", DEFAULT_NDVI)
      && f.vpdMean == Lookup(ind, "vpd_mean", 0.0)
      && f.prSum == Lookup(ind, "precipitation_mean", 0.0)
  {
    var ind := item.indicators.GetOr(map[]);
    WeekFeatures(
      Lookup(ind, "water_deficit_mean", 0.0),
      Truncate(Lookup(ind, "lst_mean", 0.0)),
      Lookup(ind, "ndvi_mean", DEFAULT_NDVI),
      Lookup(ind, "vpd_mean", 0.0),
      Lookup(ind, "precipitation_mean", 0.0))
  }

  /** `str(w)` */
  function WeekKey(item: Item): string {
    IntToString(WeekOf(item))
  }

  /** `raw_data` after the loop has stored every item in turn, later items overwriting earlier ones. */
  function RawData(items: seq<Item>): map<string, WeekFeatures> {
    if items == [] then map[]
    else
      var last := items[|items| - 1];
      RawData(items[..|items| - 1])[WeekKey(last) := Features(last)]
  }

  /** The loop that fills `raw_data` entry by entry. */
  method BuildRawData(filtered: seq<Item>) returns (raw: map<string, WeekFeatures>)
    ensures raw == RawData(filtered)
  {
    raw := map[];
    var i := 0;
    while i < |filtered|
      invariant 0 <= i <= |filtered|
      invariant raw == RawData(filtered[..i])
    {
      var item := filtered[i];
      assert filtered[..i + 1][..i] == filtered[..i];
      raw := raw[WeekKey(item) := Features(item)];
      i := i + 1;
    }
    assert filtered[..|filtered|] == filtered;
  }

  /** There is one key per week present in the filtered items, and no other. */
  lemma {:induction false} RawDataKeys(items: seq<Item>)
    ensures forall k :: k in RawData(items) <==> exists i :: 0 <= i < |items| && WeekKey(items[i]) == k
  {
    if items != [] {
      var n := |items| - 1;
      RawDataKeys(items[..n]);
      assert forall i :: 0 <= i < n ==> items[..n][i] == items[i];
    }
  }

  /** The entry of a week holds the features of the last item of that week. */
  lemma {:induction false} RawDataLastWins(items: seq<Item>, i: int)
    requires 0 <= i < |items|
    requires forall j :: i < j < |items| ==> WeekOf(items[j]) != WeekOf(items[i])
    ensures WeekKey(items[i]) in RawData(items)
    ensures RawData(items)[WeekKey(items[i])] == Features(items[i])
  {
    var n := |items| - 1;
    if i < n {
      assert items[..n][i] == items[i];
      assert forall j :: i < j < n ==> items[..n][j] == items[j];
      RawDataLastWins(items[..n], i);
      if WeekKey(items[i]) == WeekKey(items[n]) {
        IntToStringInjective(WeekOf(items[i]), WeekOf(items[n]));
        assert false;
      }
    }
  }

  /** The request body the forecast service receives. */
  datatype YieldRequest = YieldRequest(fips: string, currentWeek: int, year: int, rawData: map<string, WeekFeatures>)

  /** Week selection, filtering and `raw_data`, as the pipeline computes them before the POST. */
  function PlanRequest(fips: string, week: Option<int>, items: seq<Item>): (r: Result<YieldRequest, Failure>)
    ensures r.Err? <==> SelectWeek(week, items).Err?
    ensures r.Ok? ==>
      && r.value.fips == fips && r.value.year == SEASON_YEAR
      && r.value.currentWeek == SelectWeek(week, items).value
      && r.value.rawData == RawData(UpToWeek(items, r.value.currentWeek))
  {
    match SelectWeek(week, items)
    case Err(e) => Err(e)
    case Ok(w) => Ok(YieldRequest(fips, w, SEASON_YEAR, RawData(UpToWeek(items, w))))
  }

  /** Without an explicit week every item is kept: the maximal week bounds them all. */
  lemma DefaultWeekKeepsHistory(fips: string, items: seq<Item>)
    requires items != []
    ensures PlanRequest(fips, None, items).Ok?
    ensures PlanRequest(fips, None, items).value.rawData == RawData(items)
  {
    UpToWeekKeepsAll(items, MaxWeek(items));
  }

  /** The forecast body; every field may be absent. */
  datatype ForecastBody = ForecastBody(
    yieldForecast: Option<real>,
    uncertainty: Option<real>,
    lower: Option<real>,
    upper: Option<real>,
    primaryDriver: Option<string>,
    modelR2: Option<real>)

  /** The orchestrator's forecast response; `None` is JSON `null`. */
  datatype YieldResponse = YieldResponse(
    fips: string,
    week: int,
    predictedYield: Option<real>,
    confidenceInterval: real,
    confidenceLower: Option<real>,
    confidenceUpper: Option<real>,
    primaryDriver: string,
    modelR2: real)

  /** The response dict: echoes and defaults; it cannot fail. */
  function Assemble(fips: string, week: int, body: ForecastBody): (r: YieldResponse)
    ensures r.fips == fips && r.week == week
    ensures r.predictedYield == body.yieldForecast
    ensures r.confidenceInterval == if body.uncertainty.Some? then body.uncertainty.value else 0.31
    ensures r.primaryDriver == if body.primaryDriver.Some? then body.primaryDriver.value else "unknown"
    ensures r.modelR2 == if body.modelR2.Some? then body.modelR2.value else 0.835
  {
    YieldResponse(
      fips, week, body.yieldForecast,
      body.uncertainty.GetOr(DEFAULT_UNCERTAINTY),
      body.lower, body.upper,
      body.primaryDriver.GetOr(DEFAULT_PRIMARY_DRIVER),
      body.modelR2.GetOr(DEFAULT_MODEL_R2))
  }

  function HistoryPath(fips: string): string {
    "/mcsi/county/" + fips + "/timeseries?limit=30"
  }

  /** The whole pipeline as one value: any failure before the response becomes a 500 carrying its cause. */
  function ForecastResult(
    fips: string, week: Option<int>,
    get: string -> Reply<Timeseries>, post: (string, YieldRequest) -> Reply<ForecastBody>): Result<YieldResponse, HttpError>
  {
    match Fetch(get(MCSI_URL + HistoryPath(fips)), get(MCSI_URL_LOCAL + HistoryPath(fips)))
    case Err(e) => Err(InternalError(e))
    case Ok(ts) =>
      match PlanRequest(fips, week, Items(ts))
      case Err(e) => Err(InternalError(e))
      case Ok(req) =>
        match Fetch(post(YIELD_URL + "/forecast", req), post(YIELD_URL_LOCAL + "/forecast", req))
        case Err(e) => Err(InternalError(e))
        case Ok(body) => Ok(Assemble(fips, req.currentWeek, body))
  }

  /** `get_yield_forecast` */
  method GetYieldForecast(
    fips: string, week: Option<int>,
    get: string -> Reply<Timeseries>, post: (string, YieldRequest) -> Reply<ForecastBody>)
    returns (r: Result<YieldResponse, HttpError>)
    ensures r == ForecastResult(fips, week, get, post)
  {
    var tsRes, _ := GetWithFallback(get, MCSI_URL + HistoryPath(fips), MCSI_URL_LOCAL + HistoryPath(fips));
    var ts := RaiseForStatus(tsRes, get(MCSI_URL + HistoryPath(fips)), get(MCSI_URL_LOCAL + HistoryPath(fips)));
    if ts.Err? {
      return Err(InternalError(ts.error));
    }
    var timeseries := Items(ts.value);
    var currentWeek: int;
    if week.Some? && week.value != 0 {
      currentWeek := week.value;
    } else if timeseries == [] {
      return Err(InternalError(NoHistory));
    } else {
      currentWeek := MaxWeek(timeseries);
    }
    var filtered := UpToWeek(timeseries, currentWeek);
    var rawData := BuildRawData(filtered);
    var request := YieldRequest(fips, currentWeek, SEASON_YEAR, rawData);
    var yres := post(YIELD_URL + "/forecast", request);
    if yres.TransportError? {
      yres := post(YIELD_URL_LOCAL + "/forecast", request);
    }
    var body := RaiseForStatus(yres, post(YIELD_URL + "/forecast", request), post(YIELD_URL_LOCAL + "/forecast", request));
    if body.Err? {
      return Err(InternalError(body.error));
    }
    r := Ok(Assemble(fips, currentWeek, body.value));
  }

  /** A successful forecast echoes the county unchanged and reports the explicit week when one was given. */
  lemma ForecastEchoes(fips: string, week: Option<int>, get: string -> Reply<Timeseries>, post: (string, YieldRequest) -> Reply<ForecastBody>)
    ensures var r := ForecastResult(fips, week, get, post);
      && (r.Ok? ==> r.value.fips == fips)
      && (r.Ok? && week.Some? && week.value != 0 ==> r.value.week == week.value)
      && (r.Err? ==> r.error.Code() == 500)
  {
  }
}
