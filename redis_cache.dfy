/**
  The two-tier TTL cache of src/utils/redis-cache.ts. An in-memory map sits in front of
  localStorage; every entry carries the time it was stored and its time to live. The
  clock (`Date.now()`) is the parameter `now`, and the calls into localStorage that throw
  during a step are the parameter `faults`: the service swallows each of them.
 */
module RedisCache {
  import opened Wrappers
  import opened Json

  /** 5 minutes, in milliseconds */
  const DEFAULT_TTL: int := 5 * 60 * 1000
  /** The memory-tier size above which a `set` sweeps out expired entries */
  const MAX_MEMORY_ITEMS: nat := 100

  datatype CacheItem = CacheItem(data: Json, timestamp: int, ttl: int)

  /** What localStorage holds under a key: an item this service serialised, or text that does not parse as one. */
  datatype Stored = Record(item: CacheItem) | Unreadable

  /** One call into localStorage. */
  datatype StorageCall = SetItem(key: string) | GetItem(key: string) | RemoveItem(key: string) | ClearAll | Length

  /** The localStorage calls that throw during one step. */
  type Faults = set<StorageCall>

  /** Both tiers at one instant. */
  datatype Store = Store(memory: map<string, CacheItem>, persisted: map<string, Stored>)

  /** The value a `get` returns (JNull for JavaScript's null) and the tiers afterwards. */
  datatype Read = Read(value: Json, after: Store)

  datatype Info = Info(memorySize: nat, localStorageSize: nat, totalKeys: nat)

  /** `isExpired`: an item is stale only once strictly more than its ttl has elapsed. */
  predicate IsExpired(item: CacheItem, now: int) {
    now - item.timestamp > item.ttl
  }

  /** `localStorage.removeItem(key)`, which leaves the entry in place when it throws. */
  function Unpersist(p: map<string, Stored>, key: string, faults: Faults): map<string, Stored> {
    if RemoveItem(key) in faults then p else p - {key}
  }

  /** `cleanup`: every expired memory entry is dropped from memory and from localStorage. */
  function Sweep(s: Store, now: int, faults: Faults): (r: Store)
    ensures r.memory.Keys == set k | k in s.memory && !IsExpired(s.memory[k], now)
    ensures forall k :: k in r.memory ==> r.memory[k] == s.memory[k]
    ensures forall k :: k in s.persisted && k !in s.memory ==> k in r.persisted && r.persisted[k] == s.persisted[k]
    ensures forall k :: k in s.persisted && k in s.memory ==>
              (k in r.persisted <==> !IsExpired(s.memory[k], now) || RemoveItem(k) in faults)
    ensures forall k :: k in r.persisted ==> k in s.persisted && r.persisted[k] == s.persisted[k]
  {
    Store(map k | k in s.memory && !IsExpired(s.memory[k], now) :: s.memory[k],
          map k | k in s.persisted && !(k in s.memory && IsExpired(s.memory[k], now) && RemoveItem(k) !in faults)
                :: s.persisted[k])
  }

  /** The tiers right after `set` wrote its item, before the size check. */
  function Written(s: Store, key: string, value: Json, ttl: int, now: int, faults: Faults): (r: Store)
    ensures r.memory == s.memory[key := CacheItem(value, now, ttl)]
    ensures SetItem(key) in faults ==> r.persisted == s.persisted
    ensures SetItem(key) !in faults ==> r.persisted == s.persisted[key := Record(CacheItem(value, now, ttl))]
  {
    var item := CacheItem(value, now, ttl);
    Store(s.memory[key := item], if SetItem(key) in faults then s.persisted else s.persisted[key := Record(item)])
  }

  /** `set(key, value, ttl)` at time `now` */
  function Put(s: Store, key: string, value: Json, ttl: int, now: int, faults: Faults): (r: Store)
    // the sweep runs only once memory holds more than MAX_MEMORY_ITEMS entries
    ensures |Written(s, key, value, ttl, now, faults).memory| <= MAX_MEMORY_ITEMS ==>
              r == Written(s, key, value, ttl, now, faults)
    ensures |Written(s, key, value, ttl, now, faults).memory| > MAX_MEMORY_ITEMS ==>
              r == Sweep(Written(s, key, value, ttl, now, faults), now, faults)
    ensures ttl >= 0 ==> key in r.memory && r.memory[key] == CacheItem(value, now, ttl)
    ensures ttl >= 0 && SetItem(key) !in faults ==> key in r.persisted && r.persisted[key] == Record(CacheItem(value, now, ttl))
    ensures forall k :: k != key && k in s.memory && !IsExpired(s.memory[k], now) ==>
              k in r.memory && r.memory[k] == s.memory[k]
    ensures forall k :: k != key && k !in s.memory ==>
              k !in r.memory && (k in r.persisted <==> k in s.persisted) &&
              (k in s.persisted ==> r.persisted[k] == s.persisted[k])
    ensures forall k :: k in r.memory ==> k == key || k in s.memory
  {
    var written := Written(s, key, value, ttl, now, faults);
    if |written.memory| > MAX_MEMORY_ITEMS then Sweep(written, now, faults) else written
  }

  /** `get(key)` at time `now` */
  function Lookup(s: Store, key: string, now: int, faults: Faults): (r: Read)
    // never data of an expired item, from either tier
    ensures r.value != JNull ==>
              (key in s.memory && !IsExpired(s.memory[key], now) && r.value == s.memory[key].data) ||
              (key in s.persisted && s.persisted[key].Record? && !IsExpired(s.persisted[key].item, now) &&
               r.value == s.persisted[key].item.data)
    // a live memory entry answers on its own
    ensures key in s.memory && !IsExpired(s.memory[key], now) ==> r == Read(s.memory[key].data, s)
    // on a memory miss, a live persisted item is promoted into memory
    ensures (key !in s.memory || IsExpired(s.memory[key], now)) && GetItem(key) !in faults &&
            key in s.persisted && s.persisted[key].Record? && !IsExpired(s.persisted[key].item, now) ==>
              r == Read(s.persisted[key].item.data,
                        Store(s.memory[key := s.persisted[key].item], s.persisted))
    // an expired persisted item is removed, and the answer is null
    ensures (key !in s.memory || IsExpired(s.memory[key], now)) && GetItem(key) !in faults &&
            key in s.persisted && s.persisted[key].Record? && IsExpired(s.persisted[key].item, now) ==>
              r == Read(JNull, Store(s.memory, Unpersist(s.persisted, key, faults)))
    // a throwing getItem, a key absent from both tiers and unreadable text are all a miss
    ensures (key !in s.memory || IsExpired(s.memory[key], now)) &&
            (GetItem(key) in faults || key !in s.persisted || s.persisted[key].Unreadable?) ==>
              r == Read(JNull, s)
    // nothing else is ever changed
    ensures r.after.persisted.Keys <= s.persisted.Keys
    ensures forall k :: k != key ==> (k in r.after.memory <==> k in s.memory)
    ensures forall k :: k != key && k in s.memory ==> r.after.memory[k] == s.memory[k]
    ensures forall k :: k != key && k in s.persisted ==> k in r.after.persisted && r.after.persisted[k] == s.persisted[k]
  {
    if key in s.memory && !IsExpired(s.memory[key], now) then Read(s.memory[key].data, s)
    else if GetItem(key) in faults || key !in s.persisted then Read(JNull, s)
    else match s.persisted[key]
      case Unreadable => Read(JNull, s)
      case Record(item) =>
        if !IsExpired(item, now) then Read(item.data, Store(s.memory[key := item], s.persisted))
        else Read(JNull, Store(s.memory, Unpersist(s.persisted, key, faults)))
  }

  /** `del(key)` */
  function Remove(s: Store, key: string, faults: Faults): (r: Store)
    ensures key !in r.memory
    ensures RemoveItem(key) !in faults ==> key !in r.persisted
    ensures RemoveItem(key) in faults ==> r.persisted == s.persisted
    ensures forall k :: k != key ==> (k in r.memory <==> k in s.memory) && (k in r.persisted <==> k in s.persisted)
  {
    Store(s.memory - {key}, Unpersist(s.persisted, key, faults))
  }

  /** `flushall` */
  function Flush(s: Store, faults: Faults): (r: Store)
    ensures r.memory == map[]
    ensures r.persisted == if ClearAll in faults then s.persisted else map[]
  {
    Store(map[], if ClearAll in faults then s.persisted else map[])
  }

  /** `expire(key, ttl)`: only an entry of the memory tier can be given a new ttl. */
  function Expire(s: Store, key: string, ttl: int, now: int): (r: (bool, Store))
    ensures r.0 <==> key in s.memory
    ensures r.0 ==> r.1 == s.(memory := s.memory[key := s.memory[key].(ttl := ttl, timestamp := now)])
    ensures !r.0 ==> r.1 == s
  {
    if key in s.memory then (true, s.(memory := s.memory[key := s.memory[key].(ttl := ttl, timestamp := now)]))
    else (false, s)
  }

  /** `ttl(key)`: the milliseconds a memory entry has left, never below 0, or -1 without one. */
  function Remaining(s: Store, key: string, now: int): (r: int)
    ensures key !in s.memory <==> r == -1
    ensures key in s.memory ==> r >= 0 && r >= s.memory[key].ttl - (now - s.memory[key].timestamp)
    ensures key in s.memory && !IsExpired(s.memory[key], now) ==>
              r == s.memory[key].ttl - (now - s.memory[key].timestamp)
    ensures key in s.memory && IsExpired(s.memory[key], now) ==> r == 0
  {
    if key in s.memory then
      var remaining := s.memory[key].ttl - (now - s.memory[key].timestamp);
      if remaining > 0 then remaining else 0
    else -1
  }

  /** `info()`: localStorage's length reads as 0 when it throws. */
  function Statistics(s: Store, faults: Faults): (r: Info)
    ensures r.memorySize == r.totalKeys == |s.memory|
    ensures r.localStorageSize == if Length in faults then 0 else |s.persisted|
  {
    Info(|s.memory|, if Length in faults then 0 else |s.persisted|, |s.memory|)
  }

  /** A value read back within its ttl is the value stored, whatever localStorage did meanwhile;
      in particular a stored null reads back as absent. */
  lemma SetThenGet(s: Store, key: string, v: Json, ttl: int, now: int, later: int, f1: Faults, f2: Faults)
    requires 0 <= later - now <= ttl
    ensures Lookup(Put(s, key, v, ttl, now, f1), key, later, f2).value == v
  {
  }

  /** Once its ttl has strictly elapsed, a value whose write reached localStorage reads as absent. */
  lemma SetThenGetAfterTtl(s: Store, key: string, v: Json, ttl: int, now: int, later: int, f1: Faults, f2: Faults)
    requires ttl >= 0 && later - now > ttl && SetItem(key) !in f1
    ensures Lookup(Put(s, key, v, ttl, now, f1), key, later, f2).value == JNull
  {
  }

  /** When the localStorage write of a `set` throws, an older live copy left there is served once
      the new value's memory entry has expired. */
  lemma FailedPersistServesOlderValue(s: Store, key: string, v: Json, ttl: int, now: int, later: int, f1: Faults, f2: Faults)
    requires ttl >= 0 && later - now > ttl && SetItem(key) in f1 && GetItem(key) !in f2
    requires key in s.persisted && s.persisted[key].Record? && !IsExpired(s.persisted[key].item, later)
    ensures Lookup(Put(s, key, v, ttl, now, f1), key, later, f2).value == s.persisted[key].item.data
  {
    var r := Put(s, key, v, ttl, now, f1);
    assert key in r.memory && IsExpired(r.memory[key], later);
    assert key in r.persisted && r.persisted[key] == s.persisted[key];
  }

  /** After a `get` that found something, the next `get` is answered by the memory tier alone:
      it returns the same value and touches neither tier, whatever localStorage would do. */
  lemma PromotedReadsFromMemory(s: Store, key: string, now: int, f1: Faults, f2: Faults)
    requires Lookup(s, key, now, f1).value != JNull
    ensures var r := Lookup(s, key, now, f1);
            Lookup(r.after, key, now, f2) == Read(r.value, r.after)
  {
  }

  /** `del` makes the key read as absent, provided localStorage's removal did not throw. */
  lemma DelThenGet(s: Store, key: string, now: int, f1: Faults, f2: Faults)
    requires RemoveItem(key) !in f1
    ensures Lookup(Remove(s, key, f1), key, now, f2).value == JNull
  {
  }

  /** When localStorage's removal throws, `del` only empties the memory tier, and the next `get`
      brings a live persisted copy back. */
  lemma DelWithFailedRemoveServesPersisted(s: Store, key: string, now: int, f1: Faults, f2: Faults)
    requires RemoveItem(key) in f1 && GetItem(key) !in f2
    requires key in s.persisted && s.persisted[key].Record? && !IsExpired(s.persisted[key].item, now)
    ensures Lookup(Remove(s, key, f1), key, now, f2).value == s.persisted[key].item.data
  {
  }

  /** After a `flushall` whose localStorage.clear succeeded, every key reads as absent. */
  lemma FlushThenGet(s: Store, key: string, now: int, f1: Faults, f2: Faults)
    requires ClearAll !in f1
    ensures Lookup(Flush(s, f1), key, now, f2).value == JNull
  {
  }

  /** `ttl` right after a successful `expire(key, t)` is t (or 0 for a negative t). */
  lemma ExpireThenTtl(s: Store, key: string, t: int, now: int)
    requires key in s.memory
    ensures Expire(s, key, t, now).0
    ensures Remaining(Expire(s, key, t, now).1, key, now) == if t > 0 then t else 0
  {
  }

  /** The sweep only removes expired entries: when every entry is live, a `set` above the cap keeps
      them all, so the memory tier grows past MAX_MEMORY_ITEMS. */
  lemma LiveEntriesOutgrowTheCap(s: Store, key: string, v: Json, ttl: int, now: int, f: Faults)
    requires ttl >= 0
    requires forall k :: k in s.memory ==> !IsExpired(s.memory[k], now)
    ensures Put(s, key, v, ttl, now, f).memory == s.memory[key := CacheItem(v, now, ttl)]
  {
  }

  /** An expired entry of another key outlives a `set` that leaves memory within the cap; above
      the cap it leaves memory, and leaves localStorage unless that removal throws. */
  lemma PutSweepsOnlyAboveCap(s: Store, key: string, v: Json, ttl: int, now: int, f: Faults, other: string)
    requires other != key && other in s.memory && IsExpired(s.memory[other], now)
    ensures var written := Written(s, key, v, ttl, now, f);
            |written.memory| <= MAX_MEMORY_ITEMS ==>
              other in Put(s, key, v, ttl, now, f).memory && Put(s, key, v, ttl, now, f).persisted == written.persisted
    ensures var written := Written(s, key, v, ttl, now, f);
            |written.memory| > MAX_MEMORY_ITEMS ==>
              other !in Put(s, key, v, ttl, now, f).memory &&
              (other in Put(s, key, v, ttl, now, f).persisted <==> other in s.persisted && RemoveItem(other) in f)
  {
  }

  /** `info` right after a `flushall` whose `clear` succeeded reports an empty cache. */
  lemma FlushThenInfo(s: Store, f1: Faults, f2: Faults)
    requires ClearAll !in f1
    ensures Statistics(Flush(s, f1), f2) == Info(0, 0, 0)
  {
  }

  /** A `set` of a new key that stays within the cap grows both reported sizes by one. */
  lemma PutThenInfo(s: Store, key: string, v: Json, ttl: int, now: int, f1: Faults, f2: Faults)
    requires key !in s.memory && key !in s.persisted && |s.memory| < MAX_MEMORY_ITEMS
    requires SetItem(key) !in f1 && Length !in f2
    ensures Statistics(Put(s, key, v, ttl, now, f1), f2).memorySize == Statistics(s, f2).memorySize + 1
    ensures Statistics(Put(s, key, v, ttl, now, f1), f2).localStorageSize == Statistics(s, f2).localStorageSize + 1
  {
  }

  /** A `get` that promotes a persisted item grows the reported memory size by one. */
  lemma PromotionThenInfo(s: Store, key: string, now: int, f1: Faults, f2: Faults)
    requires key !in s.memory && Lookup(s, key, now, f1).value != JNull
    ensures Statistics(Lookup(s, key, now, f1).after, f2).memorySize == Statistics(s, f2).memorySize + 1
  {
  }

  /** The memory tier never depends on what localStorage does. */
  lemma MemoryTierIgnoresFaults(s: Store, key: string, v: Json, ttl: int, now: int, f1: Faults, f2: Faults)
    ensures Put(s, key, v, ttl, now, f1).memory == Put(s, key, v, ttl, now, f2).memory
    ensures Remove(s, key, f1).memory == Remove(s, key, f2).memory
    ensures Flush(s, f1).memory == Flush(s, f2).memory
  {
  }

  /** A `get` of `key` depends only on what both tiers hold under `key`. */
  lemma ReadDependsOnKeyOnly(s: Store, t: Store, key: string, now: int, f: Faults)
    requires key !in s.memory || !IsExpired(s.memory[key], now)
    requires key in s.memory ==> key in t.memory && t.memory[key] == s.memory[key]
    requires key !in s.memory ==> key !in t.memory && (key in t.persisted <==> key in s.persisted)
    requires key !in s.memory && key in s.persisted ==> t.persisted[key] == s.persisted[key]
    ensures Lookup(t, key, now, f).value == Lookup(s, key, now, f).value
  {
  }

  /** A `set` of one key leaves what every other key reads unchanged, unless that key's memory
      entry had already expired (the sweep may then remove it from both tiers). */
  lemma PutKeepsOtherReads(s: Store, key: string, v: Json, ttl: int, now: int, other: string, f1: Faults, f2: Faults)
    requires other != key
    requires other !in s.memory || !IsExpired(s.memory[other], now)
    ensures Lookup(Put(s, key, v, ttl, now, f1), other, now, f2).value == Lookup(s, other, now, f2).value
  {
    ReadDependsOnKeyOnly(s, Put(s, key, v, ttl, now, f1), other, now, f2);
  }

  /** One call of a `withCache`-wrapped function: what it returns (None when `fn` threw, which
      the wrapper passes on), whether `fn` ran, and the tiers afterwards. */
  datatype Memo = Memo(result: Option<Json>, called: bool, after: Store)

  /** `withCache(fn, keyGenerator, ttl)` applied to arguments whose key is `key`: the lookup
      happens at `now`, `fn` settles with `outcome` and its result is stored at `later`. */
  function Memoised(s: Store, key: string, ttl: int, now: int, later: int, faults: Faults, outcome: Option<Json>): (r: Memo)
    ensures !r.called <==> Lookup(s, key, now, faults).value != JNull
    ensures !r.called ==> r.result == Some(Lookup(s, key, now, faults).value)
    ensures r.called ==> r.result == outcome
    ensures !r.called || outcome.None? ==> r.after == Lookup(s, key, now, faults).after
    ensures r.called && outcome.Some? ==>
              r.after == Put(Lookup(s, key, now, faults).after, key, outcome.value, ttl, later, faults)
  {
    var hit := Lookup(s, key, now, faults);
    if hit.value != JNull then Memo(Some(hit.value), false, hit.after)
    else match outcome
      case None => Memo(None, true, hit.after)
      case Some(v) => Memo(Some(v), true, Put(hit.after, key, v, ttl, later, faults))
  }

  /** Once `fn` has run and produced a non-null value, calls within the ttl are served from the
      cache without running `fn` again. */
  lemma MemoisedSecondCallHits(s: Store, key: string, ttl: int, now: int, later: int, f1: Faults, v: Json,
                               now2: int, later2: int, f2: Faults, outcome2: Option<Json>)
    requires Memoised(s, key, ttl, now, later, f1, Some(v)).called
    requires v != JNull && 0 <= now2 - later <= ttl
    ensures var second := Memoised(Memoised(s, key, ttl, now, later, f1, Some(v)).after, key, ttl, now2, later2, f2, outcome2);
            !second.called && second.result == Some(v)
  {
    SetThenGet(Lookup(s, key, now, f1).after, key, v, ttl, later, now2, f1, f2);
  }

  /** A wrapped function whose result is null is never served from the cache: every call runs it. */
  lemma MemoisedNullRunsAgain(s: Store, key: string, ttl: int, now: int, later: int, f1: Faults,
                              now2: int, later2: int, f2: Faults, outcome2: Option<Json>)
    requires Memoised(s, key, ttl, now, later, f1, Some(JNull)).called
    requires 0 <= now2 - later <= ttl
    ensures Memoised(Memoised(s, key, ttl, now, later, f1, Some(JNull)).after, key, ttl, now2, later2, f2, outcome2).called
  {
    SetThenGet(Lookup(s, key, now, f1).after, key, JNull, ttl, later, now2, f1, f2);
  }

  /** `RedisCacheService`: the process-wide cache, one shared object. */
  class RedisCacheService {
    var memory: map<string, CacheItem>
    var persisted: map<string, Stored>

    function State(): Store
      reads this
    {
      Store(memory, persisted)
    }

    /** A fresh service starts with an empty memory tier over whatever localStorage already holds. */
    constructor (storage: map<string, Stored>)
      ensures memory == map[] && persisted == storage
    {
      memory := map[];
      persisted := storage;
    }

    method Set(key: string, value: Json, ttl: int, now: int, faults: Faults)
      modifies this
      ensures State() == Put(old(State()), key, value, ttl, now, faults)
    {
      var item := CacheItem(value, now, ttl);
      memory := memory[key := item];
      if SetItem(key) !in faults {
        persisted := persisted[key := Record(item)];
      }
      if |memory| > MAX_MEMORY_ITEMS {
        Cleanup(now, faults);
      }
    }

    method Get(key: string, now: int, faults: Faults) returns (value: Json)
      modifies this
      ensures Read(value, State()) == Lookup(old(State()), key, now, faults)
    {
      if key in memory && !IsExpired(memory[key], now) {
        return memory[key].data;
      }
      if GetItem(key) in faults || key !in persisted {
        return JNull;
      }
      match persisted[key]
      case Unreadable =>
        value := JNull;
      case Record(item) =>
        if !IsExpired(item, now) {
          memory := memory[key := item];
          value := item.data;
        } else {
          if RemoveItem(key) !in faults {
            persisted := persisted - {key};
          }
          value := JNull;
        }
    }

    method Del(key: string, faults: Faults)
      modifies this
      ensures State() == Remove(old(State()), key, faults)
    {
      memory := memory - {key};
      if RemoveItem(key) !in faults {
        persisted := persisted - {key};
      }
    }

    /** `exists(key)` is `get(key) !== null`, with the side effects of that `get`. */
    method Exists(key: string, now: int, faults: Faults) returns (present: bool)
      modifies this
      ensures present == (Lookup(old(State()), key, now, faults).value != JNull)
      ensures State() == Lookup(old(State()), key, now, faults).after
    {
      var value := Get(key, now, faults);
      present := value != JNull;
    }

    method ExpireKey(key: string, ttl: int, now: int) returns (found: bool)
      modifies this
      ensures (found, State()) == Expire(old(State()), key, ttl, now)
    {
      if key in memory {
        memory := memory[key := memory[key].(ttl := ttl, timestamp := now)];
        return true;
      }
      return false;
    }

    method Ttl(key: string, now: int) returns (remaining: int)
      ensures remaining == Remaining(State(), key, now)
    {
      if key in memory {
        var item := memory[key];
        remaining := item.ttl - (now - item.timestamp);
        if remaining < 0 {
          remaining := 0;
        }
      } else {
        remaining := -1;
      }
    }

    method FlushAll(faults: Faults)
      modifies this
      ensures State() == Flush(old(State()), faults)
    {
      memory := map[];
      if ClearAll !in faults {
        persisted := map[];
      }
    }

    method GetInfo(faults: Faults) returns (info: Info)
      ensures info == Statistics(State(), faults)
    {
      var localStorageSize := 0;
      if Length !in faults {
        localStorageSize := |persisted|;
      }
      info := Info(|memory|, localStorageSize, |memory|);
    }

    /** Collects the expired keys first, then removes each from both tiers. */
    method Cleanup(now: int, faults: Faults)
      modifies this
      ensures State() == Sweep(old(State()), now, faults)
    {
      var expiredKeys: seq<string> := [];
      var pending := memory.Keys;
      while pending != {}
        invariant pending <= memory.Keys
        invariant forall k :: k in expiredKeys <==> k in memory && k !in pending && IsExpired(memory[k], now)
        decreases pending
      {
        var k :| k in pending;
        if IsExpired(memory[k], now) {
          expiredKeys := expiredKeys + [k];
        }
        pending := pending - {k};
      }
      ghost var before := State();
      var i := 0;
      while i < |expiredKeys|
        invariant 0 <= i <= |expiredKeys|
        invariant memory == map k | k in before.memory && k !in expiredKeys[..i] :: before.memory[k]
        invariant persisted == map k | k in before.persisted && !(k in expiredKeys[..i] && RemoveItem(k) !in faults)
                                      :: before.persisted[k]
      {
        var k := expiredKeys[i];
        memory := memory - {k};
        if RemoveItem(k) !in faults {
          persisted := persisted - {k};
        }
        assert expiredKeys[..i + 1] == expiredKeys[..i] + [k];
        i := i + 1;
      }
      assert expiredKeys[..i] == expiredKeys;
    }
  }

  /** `withCache`: the wrapped function consults the shared cache before running `fn`. */
  method WithCache(cache: RedisCacheService, key: string, ttl: int, now: int, later: int, faults: Faults,
                   outcome: Option<Json>) returns (result: Option<Json>, called: bool)
    modifies cache
    ensures Memo(result, called, cache.State()) == Memoised(old(cache.State()), key, ttl, now, later, faults, outcome)
  {
    var cached := cache.Get(key, now, faults);
    if cached != JNull {
      return Some(cached), false;
    }
    called := true;
    if outcome.None? {
      return None, called;
    }
    cache.Set(key, outcome.value, ttl, later, faults);
    result := outcome;
  }
}
