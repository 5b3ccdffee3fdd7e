// The Missions, Drones, Sites and Users providers: one collection each, read through the shared
// cache on first load, replaced by the poll when the server's list differs, and edited after a
// successful mutation, which writes the new list back and, for missions and drones, nulls the
// other one's key.

module EntityContext {
  import opened Wrappers
  import opened Json
  import opened RedisCache
  import opened EntityLists
  import opened DataKeys

  /** The providers that hold a list. */
  predicate IsCollection(e: Entity) {
    e in {Missions, Drones, Sites, Users}
  }

  /** The key a successful mutation of `e` nulls: missions and drones invalidate each other. */
  function Dependent(e: Entity): Option<Entity> {
    match e
    case Missions => Some(Drones)
    case Drones => Some(Missions)
    case _ => None
  }

  /** The list edits, each applied after its mutation succeeded, with the server's reply. */
  datatype Edit =
    | Add                    // addMission, addDrone, addSite, addUser
    | Update(id: string)     // updateMission, updateDrone, updateSite, updateUser
    | Transition(id: string) // startMission, pauseMission, resumeMission, abortMission, completeMission
    | ChangeStatus(id: string) // updateDroneStatus
    | Delete(id: string)     // deleteMission, deleteDrone, deleteSite, deleteUser

  /** Which provider offers which mutation. */
  predicate Supports(e: Entity, edit: Edit) {
    match edit
    case Transition(_) => e == Missions
    case ChangeStatus(_) => e == Drones
    case _ => IsCollection(e)
  }

  /** The new list after a mutation whose server reply is `reply`. */
  function Apply(items: Option<seq<Json>>, edit: Edit, reply: Json): seq<Json> {
    match edit
    case Add => Append(items, reply)
    case Update(id) => ReplaceById(Items(items), id, reply)
    case Transition(id) => MergeById(Items(items), id, reply)
    case ChangeStatus(id) => SetStatusById(Items(items), id, reply)
    case Delete(id) => RemoveById(Items(items), id)
  }

  /** The provider's React state. */
  datatype Collection = Collection(items: Option<seq<Json>>, loading: bool, error: Option<string>)

  /** The provider's state together with the shared cache. */
  datatype World = World(list: Collection, store: Store)

  /** What a mutation entry point did: returned early, finished, or rethrew the network error. */
  datatype Outcome = Skipped | Done | Rethrown(error: string)

  /** The list as `JSON.stringify` sees it: a null collection is `null`. */
  function Shown(items: Option<seq<Json>>): Json {
    if items.Some? then JArr(items.value) else JNull
  }

  /** The state once a network load has settled: the list on success, the error otherwise. */
  function AfterFetch(c: Collection, fetch: Fetch<seq<Json>>): (r: Collection)
    ensures !r.loading
    ensures fetch.Fetched? ==> r.items == Some(fetch.value) && r.error == None
    ensures fetch.Failed? ==> r.items == c.items && r.error == Some(fetch.error)
  {
    match fetch
    case Fetched(list) => Collection(Some(list), false, None)
    case Failed(err) => Collection(c.items, false, Some(err))
  }

  /** The cache after a network load: a fetched list is written under the provider's key. */
  function StoreFetched(s: Store, key: string, fetch: Fetch<seq<Json>>, now: int, faults: Faults): Store {
    if fetch.Fetched? then Put(s, key, JArr(fetch.value), DEFAULT_TTL, now, faults) else s
  }

  /** The initial-load effect: nothing before the organisation is known and auth has settled;
      then a cached array is taken as it is, and anything else sends the request. */
  function Load(w: World, e: Entity, org: Option<string>, authLoading: bool, now: int, faults: Faults,
                fetch: Fetch<seq<Json>>): (r: World)
    ensures !OrgReady(org) || authLoading ==> r == w
    // a cached array is shown as it is; otherwise the request settles and a fetched list is
    // written under the key
    ensures OrgReady(org) && !authLoading ==>
              var key := CacheKey(e, org.value);
              var cached := Lookup(w.store, key, now, faults);
              r == if cached.value.JArr? then World(Collection(Some(cached.value.items), false, None), cached.after)
                   else World(AfterFetch(w.list, fetch), StoreFetched(cached.after, key, fetch, now, faults))
  {
    if !OrgReady(org) || authLoading then w
    else
      var key := CacheKey(e, org.value);
      var cached := Lookup(w.store, key, now, faults);
      if cached.value.JArr? then World(Collection(Some(cached.value.items), false, None), cached.after)
      else World(AfterFetch(w.list, fetch), StoreFetched(cached.after, key, fetch, now, faults))
  }

  /** One tick of the five-minute poll; a failed request is swallowed. */
  function Poll(w: World, e: Entity, org: Option<string>, authLoading: bool, now: int, faults: Faults,
                fetch: Fetch<seq<Json>>): (r: World)
    ensures !OrgReady(org) || authLoading || fetch.Failed? ==> r == w
    ensures r != w ==> fetch.Fetched? && r.list == w.list.(items := Some(fetch.value)) &&
                       Shown(w.list.items) != JArr(fetch.value)
    ensures OrgReady(org) && !authLoading && fetch.Fetched? && JArr(fetch.value) != Shown(w.list.items) ==>
              r == World(w.list.(items := Some(fetch.value)),
                         Put(w.store, CacheKey(e, org.value), JArr(fetch.value), DEFAULT_TTL, now, faults))
  {
    if !OrgReady(org) || authLoading then w
    else match fetch
      case Failed(_) => w
      case Fetched(list) =>
        if JArr(list) == Shown(w.list.items) then w
        else World(w.list.(items := Some(list)),
                   Put(w.store, CacheKey(e, org.value), JArr(list), DEFAULT_TTL, now, faults))
  }

  /** `refetch` and `refreshCache`: straight to the network, with no auth check. */
  function Refetch(w: World, e: Entity, org: Option<string>, now: int, faults: Faults,
                   fetch: Fetch<seq<Json>>): (r: World)
    ensures !OrgReady(org) ==> r == w
    ensures OrgReady(org) ==> r.list == AfterFetch(w.list, fetch)
    ensures OrgReady(org) && fetch.Failed? ==> r.store == w.store
    ensures OrgReady(org) && fetch.Fetched? ==>
              r.store == Put(w.store, CacheKey(e, org.value), JArr(fetch.value), DEFAULT_TTL, now, faults)
  {
    if !OrgReady(org) then w
    else World(AfterFetch(w.list, fetch), StoreFetched(w.store, CacheKey(e, org.value), fetch, now, faults))
  }

  /** The cache after a successful mutation: the new list under the provider's key, then null
      under the dependent provider's key. */
  function WriteBack(s: Store, e: Entity, org: string, list: seq<Json>, now: int, faults: Faults): Store {
    var own := Put(s, CacheKey(e, org), JArr(list), DEFAULT_TTL, now, faults);
    match Dependent(e)
    case None => own
    case Some(d) => Put(own, CacheKey(d, org), JNull, DEFAULT_TTL, now, faults)
  }

  /** A mutation entry point whose request settled with `reply`. */
  function Mutate(w: World, e: Entity, org: Option<string>, edit: Edit, reply: Fetch<Json>, now: int,
                  faults: Faults): (r: (Outcome, World))
    requires Supports(e, edit)
    ensures r.0 == Skipped <==> !OrgReady(org)
    ensures r.0.Rethrown? <==> OrgReady(org) && reply.Failed?
    ensures r.0 != Done ==> r.1 == w
    ensures r.0 == Done ==> r.1.list == w.list.(items := Some(Apply(w.list.items, edit, reply.value)))
  {
    if !OrgReady(org) then (Skipped, w)
    else match reply
      case Failed(err) => (Rethrown(err), w)
      case Fetched(payload) =>
        var list := Apply(w.list.items, edit, payload);
        (Done, World(w.list.(items := Some(list)), WriteBack(w.store, e, org.value, list, now, faults)))
  }

  /** A cached array is used as it is, whatever the network would have said; anything else in
      the cache (absent, null, an object) is ignored and the request decides. */
  lemma LoadPrefersCachedArray(w: World, e: Entity, org: Option<string>, now: int, faults: Faults,
                               f1: Fetch<seq<Json>>, f2: Fetch<seq<Json>>)
    requires OrgReady(org)
    ensures var cached := Lookup(w.store, CacheKey(e, org.value), now, faults).value;
            cached.JArr? ==> Load(w, e, org, false, now, faults, f1) == Load(w, e, org, false, now, faults, f2) &&
                             Load(w, e, org, false, now, faults, f1).list == Collection(Some(cached.items), false, None)
    ensures var cached := Lookup(w.store, CacheKey(e, org.value), now, faults);
            !cached.value.JArr? ==>
              Load(w, e, org, false, now, faults, f1).list == AfterFetch(w.list, f1) &&
              Load(w, e, org, false, now, faults, f1).store == StoreFetched(cached.after, CacheKey(e, org.value), f1, now, faults)
  {
  }

  /** A list the initial load fetched on a miss is what the next initial load within the ttl
      shows, without asking the network. */
  lemma LoadThenLoadHitsCache(w: World, e: Entity, org: Option<string>, list: seq<Json>, now: int, f1: Faults,
                              c: Collection, later: int, f2: Faults, fetch: Fetch<seq<Json>>)
    requires OrgReady(org) && 0 <= later - now <= DEFAULT_TTL
    requires !Lookup(w.store, CacheKey(e, org.value), now, f1).value.JArr?
    ensures var s := Load(w, e, org, false, now, f1, Fetched(list)).store;
            Load(World(c, s), e, org, false, later, f2, fetch).list == Collection(Some(list), false, None)
  {
    var key := CacheKey(e, org.value);
    SetThenGet(Lookup(w.store, key, now, f1).after, key, JArr(list), DEFAULT_TTL, now, later, f1, f2);
  }

  /** A list written by `refetch` is what the next initial load within the ttl shows, without
      asking the network. */
  lemma RefetchThenLoadHitsCache(w: World, e: Entity, org: Option<string>, list: seq<Json>, now: int, f1: Faults,
                                 c: Collection, later: int, f2: Faults, fetch: Fetch<seq<Json>>)
    requires OrgReady(org) && 0 <= later - now <= DEFAULT_TTL
    ensures var s := Refetch(w, e, org, now, f1, Fetched(list)).store;
            Load(World(c, s), e, org, false, later, f2, fetch).list == Collection(Some(list), false, None)
  {
    SetThenGet(w.store, CacheKey(e, org.value), JArr(list), DEFAULT_TTL, now, later, f1, f2);
  }

  /** A poll that brings back the list already held changes nothing, in state or in cache; so
      two polls with the same answer leave what the first one left. */
  lemma PollIsIdempotent(w: World, e: Entity, org: Option<string>, list: seq<Json>, n1: int, f1: Faults,
                         n2: int, f2: Faults)
    ensures var once := Poll(w, e, org, false, n1, f1, Fetched(list));
            Poll(once, e, org, false, n2, f2, Fetched(list)) == once
  {
  }

  /** A list a poll brought in is what the next initial load within the ttl shows, without
      asking the network. */
  lemma PollThenLoadHitsCache(w: World, e: Entity, org: Option<string>, list: seq<Json>, now: int, f1: Faults,
                              c: Collection, later: int, f2: Faults, fetch: Fetch<seq<Json>>)
    requires OrgReady(org) && 0 <= later - now <= DEFAULT_TTL
    requires JArr(list) != Shown(w.list.items)
    ensures var s := Poll(w, e, org, false, now, f1, Fetched(list)).store;
            Load(World(c, s), e, org, false, later, f2, fetch).list == Collection(Some(list), false, None)
  {
    SetThenGet(w.store, CacheKey(e, org.value), JArr(list), DEFAULT_TTL, now, later, f1, f2);
  }

  /** Whatever a mutation leaves in the list is what the next initial load within the ttl shows,
      straight from the cache. */
  lemma MutateThenLoad(w: World, e: Entity, org: Option<string>, edit: Edit, payload: Json, now: int, f1: Faults,
                       c: Collection, later: int, f2: Faults, fetch: Fetch<seq<Json>>)
    requires Supports(e, edit) && OrgReady(org) && 0 <= later - now <= DEFAULT_TTL
    ensures var after := Mutate(w, e, org, edit, Fetched(payload), now, f1).1;
            Load(World(c, after.store), e, org, false, later, f2, fetch).list == Collection(after.list.items, false, None)
  {
    var key := CacheKey(e, org.value);
    var list := Apply(w.list.items, edit, payload);
    var own := Put(w.store, key, JArr(list), DEFAULT_TTL, now, f1);
    assert key in own.memory && own.memory[key] == CacheItem(JArr(list), now, DEFAULT_TTL);
    if d :| Dependent(e) == Some(d) {
      CacheKeyInjective(e, org.value, d, org.value);
      var both := Put(own, CacheKey(d, org.value), JNull, DEFAULT_TTL, now, f1);
      assert key in both.memory && both.memory[key] == own.memory[key];
    }
  }

  /** After a successful mission mutation the drones provider, loading within the ttl, finds
      nothing usable in the cache and asks the network; and the same the other way round. */
  lemma MutationForcesDependentFetch(w: World, e: Entity, org: Option<string>, edit: Edit, payload: Json, now: int,
                                     f1: Faults, c: Collection, later: int, f2: Faults, fetch: Fetch<seq<Json>>)
    requires Supports(e, edit) && OrgReady(org) && Dependent(e).Some? && 0 <= later - now <= DEFAULT_TTL
    ensures var after := Mutate(w, e, org, edit, Fetched(payload), now, f1).1;
            Load(World(c, after.store), Dependent(e).value, org, false, later, f2, fetch).list == AfterFetch(c, fetch)
  {
    var list := Apply(w.list.items, edit, payload);
    var own := Put(w.store, CacheKey(e, org.value), JArr(list), DEFAULT_TTL, now, f1);
    SetThenGet(own, CacheKey(Dependent(e).value, org.value), JNull, DEFAULT_TTL, now, later, f1, f2);
  }

  /** A mutation changes what no other key reads, except that a `set` may sweep entries that
      had already expired: sites and users touch only their own key, missions and drones their
      own key and the other one's. */
  lemma MutationKeepsOtherKeys(w: World, e: Entity, org: Option<string>, edit: Edit, payload: Json, now: int,
                               f1: Faults, other: string, f2: Faults)
    requires Supports(e, edit) && OrgReady(org)
    requires other != CacheKey(e, org.value)
    requires Dependent(e).Some? ==> other != CacheKey(Dependent(e).value, org.value)
    requires other !in w.store.memory || !IsExpired(w.store.memory[other], now)
    ensures var after := Mutate(w, e, org, edit, Fetched(payload), now, f1).1;
            Lookup(after.store, other, now, f2).value == Lookup(w.store, other, now, f2).value
  {
    var list := Apply(w.list.items, edit, payload);
    var own := Put(w.store, CacheKey(e, org.value), JArr(list), DEFAULT_TTL, now, f1);
    PutKeepsOtherReads(w.store, CacheKey(e, org.value), JArr(list), DEFAULT_TTL, now, other, f1, f2);
    if Dependent(e).Some? {
      PutKeepsOtherReads(own, CacheKey(Dependent(e).value, org.value), JNull, DEFAULT_TTL, now, other, f1, f2);
    }
  }

  /** One provider instance; `cache` is the application-wide cache, shared by reference with
      every other provider. */
  class CachedCollection {
    const entity: Entity
    const cache: RedisCacheService
    var items: Option<seq<Json>>
    var loading: bool
    var error: Option<string>

    function Current(): Collection
      reads this
    {
      Collection(items, loading, error)
    }

    function State(): World
      reads this, cache
    {
      World(Current(), cache.State())
    }

    /** `useState(null)`, `useState(true)`, `useState(null)` */
    constructor (entity: Entity, cache: RedisCacheService)
      requires IsCollection(entity)
      ensures this.entity == entity && this.cache == cache
      ensures items == None && loading && error == None
    {
      this.entity := entity;
      this.cache := cache;
      items := None;
      loading := true;
      error := None;
    }

    /** Settles a network load, started with the error cleared, into the state and, on success,
        into the cache. */
    method Settle(key: string, fetch: Fetch<seq<Json>>, now: int, faults: Faults)
      requires error == None
      modifies this, cache
      ensures Current() == AfterFetch(old(Current()), fetch)
      ensures cache.State() == StoreFetched(old(cache.State()), key, fetch, now, faults)
    {
      match fetch {
        case Fetched(list) =>
          items := Some(list);
          cache.Set(key, JArr(list), DEFAULT_TTL, now, faults);
        case Failed(err) =>
          error := Some(err);
      }
      loading := false;
    }

    method InitialLoad(org: Option<string>, authLoading: bool, now: int, faults: Faults, fetch: Fetch<seq<Json>>)
      modifies this, cache
      ensures State() == Load(old(State()), entity, org, authLoading, now, faults, fetch)
    {
      if !OrgReady(org) || authLoading {
        return;
      }
      var key := CacheKey(entity, org.value);
      loading := true;
      error := None;
      var cached := cache.Get(key, now, faults);
      if cached.JArr? {
        items := Some(cached.items);
        loading := false;
        return;
      }
      Settle(key, fetch, now, faults);
    }

    method PollTick(org: Option<string>, authLoading: bool, now: int, faults: Faults, fetch: Fetch<seq<Json>>)
      modifies this, cache
      ensures State() == Poll(old(State()), entity, org, authLoading, now, faults, fetch)
    {
      if !OrgReady(org) || authLoading || fetch.Failed? {
        return;
      }
      var list := fetch.value;
      if JArr(list) != Shown(items) {
        items := Some(list);
        cache.Set(CacheKey(entity, org.value), JArr(list), DEFAULT_TTL, now, faults);
      }
    }

    method RefetchList(org: Option<string>, now: int, faults: Faults, fetch: Fetch<seq<Json>>)
      modifies this, cache
      ensures State() == Refetch(old(State()), entity, org, now, faults, fetch)
    {
      if !OrgReady(org) {
        return;
      }
      loading := true;
      error := None;
      Settle(CacheKey(entity, org.value), fetch, now, faults);
    }

    method Mutation(org: Option<string>, edit: Edit, reply: Fetch<Json>, now: int, faults: Faults)
      returns (outcome: Outcome)
      requires Supports(entity, edit)
      modifies this, cache
      ensures (outcome, State()) == Mutate(old(State()), entity, org, edit, reply, now, faults)
    {
      if !OrgReady(org) {
        return Skipped;
      }
      if reply.Failed? {
        return Rethrown(reply.error);
      }
      var list := Apply(items, edit, reply.value);
      items := Some(list);
      cache.Set(CacheKey(entity, org.value), JArr(list), DEFAULT_TTL, now, faults);
      if Dependent(entity).Some? {
        cache.Set(CacheKey(Dependent(entity).value, org.value), JNull, DEFAULT_TTL, now, faults);
      }
      outcome := Done;
    }
  }
}
