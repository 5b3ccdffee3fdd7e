// The Analytics provider: a dashboard object built from three statistics queries, with the
// built-in mock dashboard standing in for whatever the server does not supply.

module AnalyticsContext {
  import opened Wrappers
  import opened Json
  import opened RedisCache
  import opened DataKeys

  function Obj2(k1: string, v1: Json, k2: string, v2: Json): Json {
    JObj([Field(k1, v1), Field(k2, v2)])
  }

  function Obj3(k1: string, v1: Json, k2: string, v2: Json, k3: string, v3: Json): Json {
    JObj([Field(k1, v1), Field(k2, v2), Field(k3, v3)])
  }

  function Obj4(k1: string, v1: Json, k2: string, v2: Json, k3: string, v3: Json, k4: string, v4: Json): Json {
    JObj([Field(k1, v1), Field(k2, v2), Field(k3, v3), Field(k4, v4)])
  }

  /** The `keyMetrics` object. */
  function Metrics(totalMissions: Json, successRate: Json, avgUtilization: Json, flightHours: Json): (r: Json)
    ensures r.JObj?
    ensures Get(r.fields, "totalMissions") == Some(totalMissions)
    ensures Get(r.fields, "successRate") == Some(successRate)
    ensures Get(r.fields, "avgUtilization") == Some(avgUtilization)
    ensures Get(r.fields, "flightHours") == Some(flightHours)
  {
    var fs := [Field("totalMissions", totalMissions), Field("successRate", successRate),
               Field("avgUtilization", avgUtilization), Field("flightHours", flightHours)];
    GetAt(fs, 0, "totalMissions");
    GetAt(fs, 1, "successRate");
    GetAt(fs, 2, "avgUtilization");
    GetAt(fs, 3, "flightHours");
    JObj(fs)
  }

  function N(x: real): Json {
    JNum(x)
  }

  const MOCK_MISSION_DATA: Json := JArr([
    Obj4("month", JStr("Jan"), "completed", N(12.0), "failed", N(2.0), "inProgress", N(3.0)),
    Obj4("month", JStr("Feb"), "completed", N(15.0), "failed", N(1.0), "inProgress", N(2.0)),
    Obj4("month", JStr("Mar"), "completed", N(18.0), "failed", N(3.0), "inProgress", N(4.0)),
    Obj4("month", JStr("Apr"), "completed", N(14.0), "failed", N(2.0), "inProgress", N(1.0)),
    Obj4("month", JStr("May"), "completed", N(20.0), "failed", N(1.0), "inProgress", N(3.0)),
    Obj4("month", JStr("Jun"), "completed", N(16.0), "failed", N(2.0), "inProgress", N(2.0))
  ])

  const MOCK_DRONE_UTILIZATION_DATA: Json := JArr([
    Obj4("drone", JStr("Drone-001"), "utilization", N(85.0), "missions", N(12.0), "hours", N(24.0)),
    Obj4("drone", JStr("Drone-002"), "utilization", N(72.0), "missions", N(8.0), "hours", N(18.0)),
    Obj4("drone", JStr("Drone-003"), "utilization", N(91.0), "missions", N(15.0), "hours", N(32.0)),
    Obj4("drone", JStr("Drone-004"), "utilization", N(68.0), "missions", N(6.0), "hours", N(14.0))
  ])

  const MOCK_SITE_ACTIVITY_DATA: Json := JArr([
    Obj4("site", JStr("Site A"), "missions", N(15.0), "avgDuration", N(45.0), "successRate", N(92.0)),
    Obj4("site", JStr("Site B"), "missions", N(12.0), "avgDuration", N(38.0), "successRate", N(88.0)),
    Obj4("site", JStr("Site C"), "missions", N(8.0), "avgDuration", N(52.0), "successRate", N(95.0)),
    Obj4("site", JStr("Site D"), "missions", N(10.0), "avgDuration", N(41.0), "successRate", N(90.0))
  ])

  const MOCK_BATTERY_TREND_DATA: Json := JArr([
    Obj2("time", JStr("00:00"), "avgBattery", N(85.0)),
    Obj2("time", JStr("04:00"), "avgBattery", N(82.0)),
    Obj2("time", JStr("08:00"), "avgBattery", N(78.0)),
    Obj2("time", JStr("12:00"), "avgBattery", N(75.0)),
    Obj2("time", JStr("16:00"), "avgBattery", N(72.0)),
    Obj2("time", JStr("20:00"), "avgBattery", N(80.0))
  ])

  const MOCK_MISSION_TYPE_DATA: Json := JArr([
    Obj3("name", JStr("Inspection"), "value", N(45.0), "color", JStr("#3b82f6")),
    Obj3("name", JStr("Security"), "value", N(25.0), "color", JStr("#10b981")),
    Obj3("name", JStr("Mapping"), "value", N(20.0), "color", JStr("#f59e0b")),
    Obj3("name", JStr("Survey"), "value", N(10.0), "color", JStr("#8b5cf6"))
  ])

  const MOCK_KEY_METRICS: Json := Metrics(N(75.0), N(89.3), N(78.5), N(88.0))

  /** The dashboard object with the five chart arrays and the key metrics, in that order. */
  function Dashboard(missionData: Json, droneUtilizationData: Json, siteActivityData: Json,
                     batteryTrendData: Json, missionTypeData: Json, keyMetrics: Json): (r: Json)
    ensures r.JObj?
    ensures Get(r.fields, "missionData") == Some(missionData)
    ensures Get(r.fields, "droneUtilizationData") == Some(droneUtilizationData)
    ensures Get(r.fields, "siteActivityData") == Some(siteActivityData)
    ensures Get(r.fields, "batteryTrendData") == Some(batteryTrendData)
    ensures Get(r.fields, "missionTypeData") == Some(missionTypeData)
    ensures Get(r.fields, "keyMetrics") == Some(keyMetrics)
  {
    var fs := [Field("missionData", missionData), Field("droneUtilizationData", droneUtilizationData),
               Field("siteActivityData", siteActivityData), Field("batteryTrendData", batteryTrendData),
               Field("missionTypeData", missionTypeData), Field("keyMetrics", keyMetrics)];
    GetAt(fs, 0, "missionData");
    GetAt(fs, 1, "droneUtilizationData");
    GetAt(fs, 2, "siteActivityData");
    GetAt(fs, 3, "batteryTrendData");
    GetAt(fs, 4, "missionTypeData");
    GetAt(fs, 5, "keyMetrics");
    JObj(fs)
  }

  /** `mockAnalytics` */
  const MOCK_ANALYTICS: Json :=
    Dashboard(MOCK_MISSION_DATA, MOCK_DRONE_UTILIZATION_DATA, MOCK_SITE_ACTIVITY_DATA,
              MOCK_BATTERY_TREND_DATA, MOCK_MISSION_TYPE_DATA, MOCK_KEY_METRICS)

  /** What the cache must hold to be taken as the dashboard. */
  predicate IsAnalytics(v: Json) {
    IsObjectWith(v, "keyMetrics")
  }

  /** The `data` of the organisation-stats, mission-stats and drone-utilisation queries. */
  datatype Replies = Replies(orgData: Option<Json>, missionData: Option<Json>, droneData: Option<Json>)

  predicate IsTruthy(x: Option<Json>) {
    x.Some? && Truthy(x.value)
  }

  function OrgStats(rs: Replies): Option<Json> { Prop(rs.orgData, "organizationStats") }
  function MissionStats(rs: Replies): Option<Json> { Prop(rs.missionData, "missionStats") }
  function DroneUtilization(rs: Replies): Option<Json> { Prop(rs.droneData, "droneUtilization") }

  /** `hasRealData` */
  predicate HasRealData(rs: Replies) {
    IsTruthy(OrgStats(rs)) && (IsTruthy(MissionStats(rs)) || IsTruthy(DroneUtilization(rs)))
  }

  /** `completedMissions > 0`, for a numeric count. */
  predicate HasCompleted(stats: Option<Json>) {
    var c := Prop(stats, "completedMissions");
    c.Some? && c.value.JNum? && c.value.n > 0.0
  }

  /** `completedMissions / totalMissions * 100` when some missions completed, else 0. */
  function SuccessRate(stats: Option<Json>): (r: Json)
    ensures !HasCompleted(stats) ==> r == N(0.0)
  {
    if !HasCompleted(stats) then N(0.0)
    else
      var total := Prop(stats, "totalMissions");
      if total.Some? && total.value.JNum? && total.value.n != 0.0
      then N(Prop(stats, "completedMissions").value.n / total.value.n * 100.0)
      else JNull
  }

  /** The dashboard built from the three replies. */
  function Transform(rs: Replies): (r: Json)
    ensures IsAnalytics(r)
    ensures !HasRealData(rs) ==> r == MOCK_ANALYTICS
    ensures HasRealData(rs) ==>
              var metrics := Get(r.fields, "keyMetrics").value;
              metrics.JObj? &&
              Get(metrics.fields, "totalMissions") == Some(OrElse(Prop(OrgStats(rs), "totalMissions"), N(0.0))) &&
              Get(metrics.fields, "flightHours") == Some(OrElse(Prop(OrgStats(rs), "totalFlightHours"), N(0.0))) &&
              (!HasCompleted(OrgStats(rs)) ==> Get(metrics.fields, "successRate") == Some(N(0.0)))
  {
    if !HasRealData(rs) then MOCK_ANALYTICS
    else
      var org, missions, drones := OrgStats(rs), MissionStats(rs), DroneUtilization(rs);
      Dashboard(OrElse(Prop(missions, "missionData"), MOCK_MISSION_DATA),
                OrElse(Prop(drones, "droneUtilizationData"), MOCK_DRONE_UTILIZATION_DATA),
                OrElse(Prop(missions, "siteActivityData"), MOCK_SITE_ACTIVITY_DATA),
                OrElse(Prop(drones, "batteryTrendData"), MOCK_BATTERY_TREND_DATA),
                OrElse(Prop(missions, "missionTypeData"), MOCK_MISSION_TYPE_DATA),
                Metrics(OrElse(Prop(org, "totalMissions"), N(0.0)),
                        SuccessRate(org),
                        OrElse(Prop(org, "averageMissionDuration"), N(0.0)),
                        OrElse(Prop(org, "totalFlightHours"), N(0.0))))
  }

  /** The chart arrays, and which query supplies each of them. */
  datatype Chart = MissionChart | DroneChart | SiteChart | BatteryChart | MissionTypeChart

  function ChartName(c: Chart): string {
    match c
    case MissionChart => "missionData"
    case DroneChart => "droneUtilizationData"
    case SiteChart => "siteActivityData"
    case BatteryChart => "batteryTrendData"
    case MissionTypeChart => "missionTypeData"
  }

  function ChartSource(rs: Replies, c: Chart): Option<Json> {
    if c in {DroneChart, BatteryChart} then DroneUtilization(rs) else MissionStats(rs)
  }

  function MockChart(c: Chart): Json {
    match c
    case MissionChart => MOCK_MISSION_DATA
    case DroneChart => MOCK_DRONE_UTILIZATION_DATA
    case SiteChart => MOCK_SITE_ACTIVITY_DATA
    case BatteryChart => MOCK_BATTERY_TREND_DATA
    case MissionTypeChart => MOCK_MISSION_TYPE_DATA
  }

  /** With real data, every chart independently shows the server's array when there is one and
      the mock array otherwise; without real data, every chart is the mock one. */
  lemma ChartFallsBack(rs: Replies, c: Chart)
    ensures var shown := Get(Transform(rs).fields, ChartName(c));
            var supplied := Prop(ChartSource(rs, c), ChartName(c));
            (HasRealData(rs) && IsTruthy(supplied) ==> shown == supplied) &&
            (!HasRealData(rs) || !IsTruthy(supplied) ==> shown == Some(MockChart(c)))
  {
  }

  /** The provider's React state; `analytics` starts as null. */
  datatype AnalyticsView = AnalyticsView(analytics: Json, loading: bool, error: Option<string>)

  datatype World = World(view: AnalyticsView, store: Store)

  /** A settled three-query load: the dashboard, written through; on a failure the mock
      dashboard, not written. */
  function Settle(w: World, key: string, fetch: Fetch<Replies>, now: int, faults: Faults): (r: World)
    ensures !r.view.loading && IsAnalytics(r.view.analytics)
    ensures fetch.Failed? ==> r == World(AnalyticsView(MOCK_ANALYTICS, false, Some(fetch.error)), w.store)
    ensures fetch.Fetched? ==> r.view == AnalyticsView(Transform(fetch.value), false, None)
  {
    match fetch
    case Fetched(rs) =>
      World(AnalyticsView(Transform(rs), false, None), Put(w.store, key, Transform(rs), DEFAULT_TTL, now, faults))
    case Failed(err) => World(AnalyticsView(MOCK_ANALYTICS, false, Some(err)), w.store)
  }

  /** The initial-load effect: a cached dashboard is taken as it is; anything else runs the
      three queries. */
  function Load(w: World, org: Option<string>, authLoading: bool, now: int, faults: Faults, fetch: Fetch<Replies>): (r: World)
    ensures !OrgReady(org) || authLoading ==> r == w
    ensures OrgReady(org) && !authLoading ==> !r.view.loading && IsAnalytics(r.view.analytics)
    // a cached dashboard is taken as it is; anything else settles the queries, written through
    ensures OrgReady(org) && !authLoading ==>
              var key := CacheKey(Analytics, org.value);
              var cached := Lookup(w.store, key, now, faults);
              r == if IsAnalytics(cached.value) then World(AnalyticsView(cached.value, false, None), cached.after)
                   else Settle(World(w.view, cached.after), key, fetch, now, faults)
  {
    if !OrgReady(org) || authLoading then w
    else
      var key := CacheKey(Analytics, org.value);
      var cached := Lookup(w.store, key, now, faults);
      if IsAnalytics(cached.value) then World(AnalyticsView(cached.value, false, None), cached.after)
      else Settle(World(w.view, cached.after), key, fetch, now, faults)
  }

  /** `refetch`: the three queries, without looking at the cache. */
  function Refetch(w: World, org: Option<string>, now: int, faults: Faults, fetch: Fetch<Replies>): (r: World)
    ensures !OrgReady(org) ==> r == w
    ensures OrgReady(org) ==> r == Settle(w, CacheKey(Analytics, org.value), fetch, now, faults)
  {
    if !OrgReady(org) then w else Settle(w, CacheKey(Analytics, org.value), fetch, now, faults)
  }

  /** `refreshCache`: the organisation stats alone replace the dashboard. */
  function Refresh(w: World, org: Option<string>, now: int, faults: Faults, fetch: Fetch<Json>): (r: World)
    ensures !OrgReady(org) ==> r == w
    ensures OrgReady(org) && fetch.Fetched? ==> r.view == AnalyticsView(fetch.value, false, None)
    ensures OrgReady(org) && fetch.Fetched? ==>
              r.store == Put(w.store, CacheKey(Analytics, org.value), fetch.value, DEFAULT_TTL, now, faults)
    ensures OrgReady(org) && fetch.Failed? ==> r == World(w.view.(loading := false, error := Some(fetch.error)), w.store)
  {
    if !OrgReady(org) then w
    else match fetch
      case Fetched(stats) =>
        World(AnalyticsView(stats, false, None), Put(w.store, CacheKey(Analytics, org.value), stats, DEFAULT_TTL, now, faults))
      case Failed(err) => World(w.view.(loading := false, error := Some(err)), w.store)
  }

  /** One tick of the poll, given the organisation stats the query returned. */
  function Poll(w: World, org: Option<string>, authLoading: bool, now: int, faults: Faults, fetch: Fetch<Json>): (r: World)
    ensures !OrgReady(org) || authLoading || fetch.Failed? ==> r == w
    ensures r != w ==> fetch.Fetched? && r.view == w.view.(analytics := fetch.value) && fetch.value != w.view.analytics
    ensures OrgReady(org) && !authLoading && fetch.Fetched? && fetch.value != w.view.analytics ==>
              r == World(w.view.(analytics := fetch.value),
                         Put(w.store, CacheKey(Analytics, org.value), fetch.value, DEFAULT_TTL, now, faults))
  {
    if !OrgReady(org) || authLoading || fetch.Failed? then w
    else if fetch.value == w.view.analytics then w
    else World(w.view.(analytics := fetch.value),
               Put(w.store, CacheKey(Analytics, org.value), fetch.value, DEFAULT_TTL, now, faults))
  }

  /** `updateAnalytics(value)` */
  function Update(w: World, org: Option<string>, value: Json, now: int, faults: Faults): (r: World)
    ensures !OrgReady(org) ==> r == w
    ensures OrgReady(org) ==> r.view == w.view.(analytics := value)
  {
    if !OrgReady(org) then w
    else World(w.view.(analytics := value), Put(w.store, CacheKey(Analytics, org.value), value, DEFAULT_TTL, now, faults))
  }

  /** A dashboard the network produced is what the next initial load within the ttl shows,
      straight from the cache. */
  lemma RefetchThenLoadHitsCache(w: World, org: Option<string>, rs: Replies, now: int, f1: Faults,
                                 c: AnalyticsView, later: int, f2: Faults, fetch: Fetch<Replies>)
    requires OrgReady(org) && 0 <= later - now <= DEFAULT_TTL
    ensures var s := Refetch(w, org, now, f1, Fetched(rs)).store;
            Load(World(c, s), org, false, later, f2, fetch).view == AnalyticsView(Transform(rs), false, None)
  {
    SetThenGet(w.store, CacheKey(Analytics, org.value), Transform(rs), DEFAULT_TTL, now, later, f1, f2);
  }

  /** A value given to `updateAnalytics` comes back from the next initial load within the ttl
      exactly when it carries `keyMetrics`; otherwise that load runs the queries. */
  lemma UpdateThenLoad(w: World, org: Option<string>, value: Json, now: int, f1: Faults,
                       c: AnalyticsView, later: int, f2: Faults, fetch: Fetch<Replies>)
    requires OrgReady(org) && 0 <= later - now <= DEFAULT_TTL
    ensures var s := Update(w, org, value, now, f1).store;
            var loaded := Load(World(c, s), org, false, later, f2, fetch);
            (IsAnalytics(value) ==> loaded.view == AnalyticsView(value, false, None)) &&
            (!IsAnalytics(value) ==> loaded.view == Settle(World(c, s), CacheKey(Analytics, org.value), fetch, later, f2).view)
  {
    SetThenGet(w.store, CacheKey(Analytics, org.value), value, DEFAULT_TTL, now, later, f1, f2);
  }

  /** Organisation stats a poll brought in come back from the next initial load within the ttl
      only if they carry `keyMetrics`; otherwise that load runs the queries again. */
  lemma PollThenLoad(w: World, org: Option<string>, v: Json, now: int, f1: Faults,
                     c: AnalyticsView, later: int, f2: Faults, fetch: Fetch<Replies>)
    requires OrgReady(org) && 0 <= later - now <= DEFAULT_TTL && v != w.view.analytics
    ensures var s := Poll(w, org, false, now, f1, Fetched(v)).store;
            var loaded := Load(World(c, s), org, false, later, f2, fetch);
            (IsAnalytics(v) ==> loaded.view == AnalyticsView(v, false, None)) &&
            (!IsAnalytics(v) ==> loaded.view == Settle(World(c, s), CacheKey(Analytics, org.value), fetch, later, f2).view)
  {
    SetThenGet(w.store, CacheKey(Analytics, org.value), v, DEFAULT_TTL, now, later, f1, f2);
  }

  /** A dashboard the initial load fetched on a miss is what the next initial load within the
      ttl shows, straight from the cache. */
  lemma LoadThenLoadHitsCache(w: World, org: Option<string>, rs: Replies, now: int, f1: Faults,
                              c: AnalyticsView, later: int, f2: Faults, fetch: Fetch<Replies>)
    requires OrgReady(org) && 0 <= later - now <= DEFAULT_TTL
    requires !IsAnalytics(Lookup(w.store, CacheKey(Analytics, org.value), now, f1).value)
    ensures var s := Load(w, org, false, now, f1, Fetched(rs)).store;
            Load(World(c, s), org, false, later, f2, fetch).view == AnalyticsView(Transform(rs), false, None)
  {
    var key := CacheKey(Analytics, org.value);
    SetThenGet(Lookup(w.store, key, now, f1).after, key, Transform(rs), DEFAULT_TTL, now, later, f1, f2);
  }

  /** Organisation stats `refreshCache` brought in come back from the next initial load within
      the ttl only if they carry `keyMetrics`; otherwise that load runs the queries again. */
  lemma RefreshThenLoad(w: World, org: Option<string>, v: Json, now: int, f1: Faults,
                        c: AnalyticsView, later: int, f2: Faults, fetch: Fetch<Replies>)
    requires OrgReady(org) && 0 <= later - now <= DEFAULT_TTL
    ensures var s := Refresh(w, org, now, f1, Fetched(v)).store;
            var loaded := Load(World(c, s), org, false, later, f2, fetch);
            (IsAnalytics(v) ==> loaded.view == AnalyticsView(v, false, None)) &&
            (!IsAnalytics(v) ==> loaded.view == Settle(World(c, s), CacheKey(Analytics, org.value), fetch, later, f2).view)
  {
    SetThenGet(w.store, CacheKey(Analytics, org.value), v, DEFAULT_TTL, now, later, f1, f2);
  }

  /** Two polls with the same answer leave what the first one left. */
  lemma PollIsIdempotent(w: World, org: Option<string>, v: Json, n1: int, f1: Faults, n2: int, f2: Faults)
    ensures var once := Poll(w, org, false, n1, f1, Fetched(v));
            Poll(once, org, false, n2, f2, Fetched(v)) == once
  {
  }

  class AnalyticsStore {
    const cache: RedisCacheService
    var analytics: Json
    var loading: bool
    var error: Option<string>

    function State(): World
      reads this, cache
    {
      World(AnalyticsView(analytics, loading, error), cache.State())
    }

    /** `useState(null)`, `useState(true)`, `useState(null)` */
    constructor (cache: RedisCacheService)
      ensures this.cache == cache
      ensures analytics == JNull && loading && error == None
    {
      this.cache := cache;
      analytics := JNull;
      loading := true;
      error := None;
    }

    method SettleQueries(key: string, fetch: Fetch<Replies>, now: int, faults: Faults)
      requires error == None
      modifies this, cache
      ensures State() == Settle(old(State()), key, fetch, now, faults)
    {
      match fetch {
        case Fetched(rs) =>
          analytics := Transform(rs);
          cache.Set(key, analytics, DEFAULT_TTL, now, faults);
        case Failed(err) =>
          error := Some(err);
          analytics := MOCK_ANALYTICS;
      }
      loading := false;
    }

    method InitialLoad(org: Option<string>, authLoading: bool, now: int, faults: Faults, fetch: Fetch<Replies>)
      modifies this, cache
      ensures State() == Load(old(State()), org, authLoading, now, faults, fetch)
    {
      if !OrgReady(org) || authLoading {
        return;
      }
      var key := CacheKey(Analytics, org.value);
      loading := true;
      error := None;
      var cached := cache.Get(key, now, faults);
      if IsAnalytics(cached) {
        analytics := cached;
        loading := false;
        return;
      }
      SettleQueries(key, fetch, now, faults);
    }

    method RefetchAll(org: Option<string>, now: int, faults: Faults, fetch: Fetch<Replies>)
      modifies this, cache
      ensures State() == Refetch(old(State()), org, now, faults, fetch)
    {
      if !OrgReady(org) {
        return;
      }
      loading := true;
      error := None;
      SettleQueries(CacheKey(Analytics, org.value), fetch, now, faults);
    }

    method RefreshCache(org: Option<string>, now: int, faults: Faults, fetch: Fetch<Json>)
      modifies this, cache
      ensures State() == Refresh(old(State()), org, now, faults, fetch)
    {
      if !OrgReady(org) {
        return;
      }
      loading := true;
      error := None;
      match fetch {
        case Fetched(stats) =>
          analytics := stats;
          cache.Set(CacheKey(Analytics, org.value), stats, DEFAULT_TTL, now, faults);
        case Failed(err) =>
          error := Some(err);
      }
      loading := false;
    }

    method PollTick(org: Option<string>, authLoading: bool, now: int, faults: Faults, fetch: Fetch<Json>)
      modifies this, cache
      ensures State() == Poll(old(State()), org, authLoading, now, faults, fetch)
    {
      if !OrgReady(org) || authLoading || fetch.Failed? {
        return;
      }
      if fetch.value != analytics {
        analytics := fetch.value;
        cache.Set(CacheKey(Analytics, org.value), fetch.value, DEFAULT_TTL, now, faults);
      }
    }

    method UpdateAnalytics(org: Option<string>, value: Json, now: int, faults: Faults)
      modifies this, cache
      ensures State() == Update(old(State()), org, value, now, faults)
    {
      if !OrgReady(org) {
        return;
      }
      analytics := value;
      cache.Set(CacheKey(Analytics, org.value), value, DEFAULT_TTL, now, faults);
    }
  }
}
