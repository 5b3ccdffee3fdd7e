// The Settings provider: settings live only in the cache, backed by built-in defaults; the
// network is asked only by the poll and by `refreshCache`.

module SettingsContext {
  import opened Wrappers
  import opened Json
  import opened RedisCache
  import opened DataKeys

  /** `defaultSettings` */
  const DEFAULT_SETTINGS: Json := JObj([
    Field("notifications", JObj([Field("email", JBool(true)), Field("push", JBool(true)), Field("sms", JBool(false))])),
    Field("theme", JStr("system")),
    Field("language", JStr("en")),
    Field("timezone", JStr("UTC")),
    Field("units", JStr("metric")),
    Field("autoRefresh", JBool(true)),
    Field("refreshInterval", JNum(30.0))
  ])

  /** What the cache must hold to be taken as settings. */
  predicate IsSettings(v: Json) {
    IsObjectWith(v, "notifications")
  }

  /** The provider's React state; `settings` starts as null. */
  datatype SettingsView = SettingsView(settings: Json, loading: bool, error: Option<string>)

  datatype World = World(view: SettingsView, store: Store)

  /** `refetch`: the cached settings when they look like settings, else the defaults, written
      back; never the network. */
  function CacheRefetch(w: World, org: Option<string>, now: int, faults: Faults): (r: World)
    ensures !OrgReady(org) ==> r == w
    ensures OrgReady(org) ==> IsSettings(r.view.settings) && !r.view.loading && r.view.error == None
    ensures OrgReady(org) && IsSettings(Lookup(w.store, CacheKey(Settings, org.value), now, faults).value) ==>
              r.view.settings == Lookup(w.store, CacheKey(Settings, org.value), now, faults).value
    // the cache is read once, and the defaults it lacked are written back under the key
    ensures OrgReady(org) ==>
              var key := CacheKey(Settings, org.value);
              var cached := Lookup(w.store, key, now, faults);
              r.store == if IsSettings(cached.value) then cached.after
                         else Put(cached.after, key, DEFAULT_SETTINGS, DEFAULT_TTL, now, faults)
  {
    if !OrgReady(org) then w
    else
      var key := CacheKey(Settings, org.value);
      var cached := Lookup(w.store, key, now, faults);
      if IsSettings(cached.value) then World(SettingsView(cached.value, false, None), cached.after)
      else World(SettingsView(DEFAULT_SETTINGS, false, None), Put(cached.after, key, DEFAULT_SETTINGS, DEFAULT_TTL, now, faults))
  }

  /** The initial-load effect: the same read-through as `refetch`, once auth has settled. */
  function Load(w: World, org: Option<string>, authLoading: bool, now: int, faults: Faults): (r: World)
    ensures authLoading ==> r == w
    ensures !authLoading ==> r == CacheRefetch(w, org, now, faults)
  {
    if authLoading then w else CacheRefetch(w, org, now, faults)
  }

  /** Stores new settings in the state and under the provider's key. */
  function Write(w: World, org: string, settings: Json, now: int, faults: Faults): World {
    World(w.view.(settings := settings), Put(w.store, CacheKey(Settings, org), settings, DEFAULT_TTL, now, faults))
  }

  /** One tick of the poll; a failed request is swallowed. */
  function Poll(w: World, org: Option<string>, authLoading: bool, now: int, faults: Faults, fetch: Fetch<Json>): (r: World)
    ensures !OrgReady(org) || authLoading || fetch.Failed? ==> r == w
    ensures r != w ==> fetch.Fetched? && r.view == w.view.(settings := fetch.value) && fetch.value != w.view.settings
    ensures OrgReady(org) && !authLoading && fetch.Fetched? && fetch.value != w.view.settings ==>
              r == Write(w, org.value, fetch.value, now, faults)
  {
    if !OrgReady(org) || authLoading || fetch.Failed? then w
    else if fetch.value == w.view.settings then w
    else Write(w, org.value, fetch.value, now, faults)
  }

  /** `updateSetting(key, value)`: a no-op while the settings are null. */
  function UpdateSetting(w: World, org: Option<string>, key: string, value: Json, now: int, faults: Faults): (r: World)
    ensures !OrgReady(org) || !Truthy(w.view.settings) ==> r == w
    ensures OrgReady(org) && Truthy(w.view.settings) ==>
              r.view.settings.JObj? &&
              forall k :: Get(r.view.settings.fields, k) == if k == key then Some(value) else Get(OwnFields(w.view.settings), k)
    ensures OrgReady(org) && Truthy(w.view.settings) ==> r == Write(w, org.value, r.view.settings, now, faults)
  {
    if !OrgReady(org) || !Truthy(w.view.settings) then w
    else Write(w, org.value, JObj(Assign(OwnFields(w.view.settings), key, value)), now, faults)
  }

  /** `updateSettings(partial)`: `{ ...settings, ...partial }`, a no-op while the settings are null. */
  function UpdateSettings(w: World, org: Option<string>, partial: Json, now: int, faults: Faults): (r: World)
    requires WellFormedObject(partial)
    ensures !OrgReady(org) || !Truthy(w.view.settings) ==> r == w
    ensures OrgReady(org) && Truthy(w.view.settings) ==>
              r.view.settings.JObj? &&
              forall k :: Get(r.view.settings.fields, k) ==
                          if Has(OwnFields(partial), k) then Get(OwnFields(partial), k) else Get(OwnFields(w.view.settings), k)
    ensures OrgReady(org) && Truthy(w.view.settings) ==> r == Write(w, org.value, r.view.settings, now, faults)
  {
    if !OrgReady(org) || !Truthy(w.view.settings) then w
    else Write(w, org.value, JObj(Spread(OwnFields(w.view.settings), OwnFields(partial))), now, faults)
  }

  /** `resetSettings` */
  function Reset(w: World, org: Option<string>, now: int, faults: Faults): (r: World)
    ensures !OrgReady(org) ==> r == w
    ensures OrgReady(org) ==> r.view.settings == DEFAULT_SETTINGS
    ensures OrgReady(org) ==> r == Write(w, org.value, DEFAULT_SETTINGS, now, faults)
  {
    if !OrgReady(org) then w else Write(w, org.value, DEFAULT_SETTINGS, now, faults)
  }

  /** `refreshCache`: the network's settings, whatever their shape. */
  function Refresh(w: World, org: Option<string>, now: int, faults: Faults, fetch: Fetch<Json>): (r: World)
    ensures !OrgReady(org) ==> r == w
    ensures OrgReady(org) && fetch.Fetched? ==> r.view == SettingsView(fetch.value, false, None)
    ensures OrgReady(org) && fetch.Fetched? ==>
              r.store == Put(w.store, CacheKey(Settings, org.value), fetch.value, DEFAULT_TTL, now, faults)
    ensures OrgReady(org) && fetch.Failed? ==> r.view == w.view.(loading := false, error := Some(fetch.error)) && r.store == w.store
  {
    if !OrgReady(org) then w
    else match fetch
      case Fetched(v) => World(SettingsView(v, false, None), Put(w.store, CacheKey(Settings, org.value), v, DEFAULT_TTL, now, faults))
      case Failed(err) => World(w.view.(loading := false, error := Some(err)), w.store)
  }

  lemma DefaultsAreSettings()
    ensures IsSettings(DEFAULT_SETTINGS)
  {
  }

  /** Whatever `refetch` shows is what it finds on the next call within the ttl: the defaults it
      wrote, or the cached settings it kept, provided no entry under the key that was live at
      the first call has expired by the second. */
  lemma {:induction false} CacheRefetchIsStable(w: World, org: Option<string>, now: int, f1: Faults, later: int, f2: Faults)
    requires OrgReady(org) && 0 <= later - now <= DEFAULT_TTL
    requires var key := CacheKey(Settings, org.value);
             key in w.store.memory ==> IsExpired(w.store.memory[key], now) || !IsExpired(w.store.memory[key], later)
    requires var key := CacheKey(Settings, org.value);
             key in w.store.persisted && w.store.persisted[key].Record? ==>
               IsExpired(w.store.persisted[key].item, now) || !IsExpired(w.store.persisted[key].item, later)
    ensures CacheRefetch(CacheRefetch(w, org, now, f1), org, later, f2).view.settings == CacheRefetch(w, org, now, f1).view.settings
  {
    var key := CacheKey(Settings, org.value);
    var cached := Lookup(w.store, key, now, f1);
    if IsSettings(cached.value) {
      var s := cached.after;
      if key in w.store.memory && !IsExpired(w.store.memory[key], now) {
        assert s == w.store;
      } else {
        assert key in s.memory && s.memory[key] == w.store.persisted[key].item;
      }
    } else {
      SetThenGet(cached.after, key, DEFAULT_SETTINGS, DEFAULT_TTL, now, later, f1, f2);
    }
  }

  /** A setting changed on settings that carry `notifications` is what `refetch` shows within
      the ttl. */
  lemma UpdateSettingThenRefetch(w: World, org: Option<string>, key: string, value: Json, now: int, f1: Faults,
                                 later: int, f2: Faults)
    requires OrgReady(org) && IsSettings(w.view.settings)
    requires 0 <= later - now <= DEFAULT_TTL
    ensures var after := UpdateSetting(w, org, key, value, now, f1);
            CacheRefetch(after, org, later, f2).view.settings == after.view.settings
  {
    var after := UpdateSetting(w, org, key, value, now, f1);
    assert Has(after.view.settings.fields, "notifications");
    SetThenGet(w.store, CacheKey(Settings, org.value), after.view.settings, DEFAULT_TTL, now, later, f1, f2);
  }

  /** Settings merged over settings that carry `notifications` are what `refetch` shows within
      the ttl. */
  lemma UpdateSettingsThenRefetch(w: World, org: Option<string>, partial: Json, now: int, f1: Faults,
                                  later: int, f2: Faults)
    requires OrgReady(org) && IsSettings(w.view.settings) && WellFormedObject(partial)
    requires 0 <= later - now <= DEFAULT_TTL
    ensures var after := UpdateSettings(w, org, partial, now, f1);
            CacheRefetch(after, org, later, f2).view.settings == after.view.settings
  {
    var after := UpdateSettings(w, org, partial, now, f1);
    assert Has(after.view.settings.fields, "notifications");
    SetThenGet(w.store, CacheKey(Settings, org.value), after.view.settings, DEFAULT_TTL, now, later, f1, f2);
  }

  /** A poll that brought new settings is what `refetch` shows within the ttl, provided they
      carry `notifications`; otherwise `refetch` falls back to the defaults. */
  lemma PollThenRefetch(w: World, org: Option<string>, v: Json, now: int, f1: Faults, later: int, f2: Faults)
    requires OrgReady(org) && 0 <= later - now <= DEFAULT_TTL && v != w.view.settings
    ensures var after := Poll(w, org, false, now, f1, Fetched(v));
            CacheRefetch(after, org, later, f2).view.settings == if IsSettings(v) then v else DEFAULT_SETTINGS
  {
    SetThenGet(w.store, CacheKey(Settings, org.value), v, DEFAULT_TTL, now, later, f1, f2);
  }

  /** Settings `refreshCache` brought in are what `refetch` within the ttl shows when they hold
      `notifications`; otherwise it shows the defaults. */
  lemma RefreshThenRefetch(w: World, org: Option<string>, v: Json, now: int, f1: Faults, c: SettingsView,
                           later: int, f2: Faults)
    requires OrgReady(org) && 0 <= later - now <= DEFAULT_TTL
    ensures var s := Refresh(w, org, now, f1, Fetched(v)).store;
            CacheRefetch(World(c, s), org, later, f2).view.settings == if IsSettings(v) then v else DEFAULT_SETTINGS
  {
    SetThenGet(w.store, CacheKey(Settings, org.value), v, DEFAULT_TTL, now, later, f1, f2);
  }

  /** After `resetSettings`, `refetch` within the ttl shows the defaults. */
  lemma ResetThenRefetch(w: World, org: Option<string>, now: int, f1: Faults, c: World, later: int, f2: Faults)
    requires OrgReady(org) && 0 <= later - now <= DEFAULT_TTL
    ensures CacheRefetch(World(c.view, Reset(w, org, now, f1).store), org, later, f2).view.settings == DEFAULT_SETTINGS
  {
    SetThenGet(w.store, CacheKey(Settings, org.value), DEFAULT_SETTINGS, DEFAULT_TTL, now, later, f1, f2);
  }

  /** Two polls with the same answer leave what the first one left. */
  lemma PollIsIdempotent(w: World, org: Option<string>, v: Json, n1: int, f1: Faults, n2: int, f2: Faults)
    ensures var once := Poll(w, org, false, n1, f1, Fetched(v));
            Poll(once, org, false, n2, f2, Fetched(v)) == once
  {
  }

  class SettingsStore {
    const cache: RedisCacheService
    var settings: Json
    var loading: bool
    var error: Option<string>

    function State(): World
      reads this, cache
    {
      World(SettingsView(settings, loading, error), cache.State())
    }

    /** `useState(null)`, `useState(true)`, `useState(null)` */
    constructor (cache: RedisCacheService)
      ensures this.cache == cache
      ensures settings == JNull && loading && error == None
    {
      this.cache := cache;
      settings := JNull;
      loading := true;
      error := None;
    }

    method Refetch(org: Option<string>, now: int, faults: Faults)
      modifies this, cache
      ensures State() == CacheRefetch(old(State()), org, now, faults)
    {
      if !OrgReady(org) {
        return;
      }
      var key := CacheKey(Settings, org.value);
      loading := true;
      error := None;
      var cached := cache.Get(key, now, faults);
      if IsSettings(cached) {
        settings := cached;
      } else {
        settings := DEFAULT_SETTINGS;
        cache.Set(key, DEFAULT_SETTINGS, DEFAULT_TTL, now, faults);
      }
      loading := false;
    }

    method InitialLoad(org: Option<string>, authLoading: bool, now: int, faults: Faults)
      modifies this, cache
      ensures State() == Load(old(State()), org, authLoading, now, faults)
    {
      if !authLoading {
        Refetch(org, now, faults);
      }
    }

    method PollTick(org: Option<string>, authLoading: bool, now: int, faults: Faults, fetch: Fetch<Json>)
      modifies this, cache
      ensures State() == Poll(old(State()), org, authLoading, now, faults, fetch)
    {
      if !OrgReady(org) || authLoading || fetch.Failed? {
        return;
      }
      if fetch.value != settings {
        settings := fetch.value;
        cache.Set(CacheKey(Settings, org.value), fetch.value, DEFAULT_TTL, now, faults);
      }
    }

    method SetOne(org: Option<string>, key: string, value: Json, now: int, faults: Faults)
      modifies this, cache
      ensures State() == UpdateSetting(old(State()), org, key, value, now, faults)
    {
      if !OrgReady(org) || !Truthy(settings) {
        return;
      }
      settings := JObj(Assign(OwnFields(settings), key, value));
      cache.Set(CacheKey(Settings, org.value), settings, DEFAULT_TTL, now, faults);
    }

    method SetMany(org: Option<string>, partial: Json, now: int, faults: Faults)
      requires WellFormedObject(partial)
      modifies this, cache
      ensures State() == UpdateSettings(old(State()), org, partial, now, faults)
    {
      if !OrgReady(org) || !Truthy(settings) {
        return;
      }
      settings := JObj(Spread(OwnFields(settings), OwnFields(partial)));
      cache.Set(CacheKey(Settings, org.value), settings, DEFAULT_TTL, now, faults);
    }

    method ResetSettings(org: Option<string>, now: int, faults: Faults)
      modifies this, cache
      ensures State() == Reset(old(State()), org, now, faults)
    {
      if !OrgReady(org) {
        return;
      }
      settings := DEFAULT_SETTINGS;
      cache.Set(CacheKey(Settings, org.value), DEFAULT_SETTINGS, DEFAULT_TTL, now, faults);
    }

    method RefreshCache(org: Option<string>, now: int, faults: Faults, fetch: Fetch<Json>)
      modifies this, cache
      ensures State() == Refresh(old(State()), org, now, faults, fetch)
    {
      if !OrgReady(org) {
        return;
      }
      loading := true;
      error := None;
      match fetch {
        case Fetched(v) =>
          settings := v;
          cache.Set(CacheKey(Settings, org.value), v, DEFAULT_TTL, now, faults);
        case Failed(err) =>
          error := Some(err);
      }
      loading := false;
    }
  }
}
