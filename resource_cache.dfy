/**
 `PokemonCacheProvider` (src/exercise/04.js) as an object: the two
 dictionaries it keeps in refs become two map fields, `getPokemonResource`
 becomes `Get` and the body of the periodic interval becomes `Sweep`. Time
 is passed in; the fetch function is a parameter fixed at construction.
 A log records every fetch, so that the number of resources created
 per name can be stated; after each call the object's `Abstract()` view is
 the one CacheSpec prescribes.
 */
module ResourceCache {
  import opened AsyncResource
  import opened CacheSpec

  /** `createPokemonResource(name)`: a new pending resource around the
      promise of the `call`-th fetch, which is a fetch of `name`. */
  method CreatePokemonResource<T>(fetch: (string, nat) -> T, name: string, call: nat) returns (r: Resource<T>)
    ensures fresh(r) && r.Valid()
    ensures r.status == Pending && r.result == fetch(name, call)
  {
    r := new Resource(fetch(name, call));
  }

  class PokemonCache<T> {
    /** How long an untouched entry lives (the `cacheTime` prop). */
    const cacheTime: int
    /** The injected `fetchPokemon`, chained as `createResource` chains it:
        the in-flight promise of a fetch of a name, given how many fetches
        were issued before it, so that every call has its own promise. */
    const fetch: (string, nat) -> T

    var cache: map<string, Resource<T>>
    var expirations: map<string, int>
    /** How many times `fetchPokemon` has been called; it tells each call
        which promise it gets. */
    var calls: nat
    /** The names fetched so far, in order. */
    ghost var fetchLog: seq<string>

    ghost function Abstract(): View
      reads this
    {
      View(cache.Keys, expirations, fetchLog)
    }

    /** Every cached name has a stamp and was fetched, and no two names
        share a resource: each was created for its own name. */
    ghost predicate Valid()
      reads this
    {
      && Consistent(Abstract())
      && calls == |fetchLog|
      && forall a, b :: a in cache && b in cache && a != b ==> cache[a] != cache[b]
    }

    /** A provider with empty dictionaries; `cacheTime` defaults to 5000
        milliseconds, as the prop does. */
    constructor (fetch: (string, nat) -> T, cacheTime: int := 5000)
      ensures Valid()
      ensures this.fetch == fetch && this.cacheTime == cacheTime
      ensures cache == map[] && expirations == map[] && fetchLog == [] && calls == 0
    {
      this.fetch := fetch;
      this.cacheTime := cacheTime;
      cache := map[];
      expirations := map[];
      fetchLog := [];
      calls := 0;
    }

    /** `getPokemonResource(name)` at time `now`. A hit returns the cached
        resource and fetches nothing; a miss creates one new pending
        resource, stores it under `name` and returns it. Either way the
        stamp of `name` becomes `now + cacheTime`, and no other name's entry
        or stamp changes. */
    method Get(name: string, now: int) returns (r: Resource<T>)
      requires Valid()
      modifies this
      ensures Valid()
      ensures Abstract() == Request(old(Abstract()), name, now, cacheTime)
      ensures cache == old(cache)[name := r]
      ensures expirations == old(expirations)[name := now + cacheTime]
      ensures name in old(cache) ==> r == old(cache)[name] && fetchLog == old(fetchLog)
      ensures name !in old(cache) ==>
        fresh(r) && r.Valid() && r.status == Pending && r.result == fetch(name, |old(fetchLog)|)
        && fetchLog == old(fetchLog) + [name]
    {
      if name in cache {
        r := cache[name];
      } else {
        r := CreatePokemonResource(fetch, name, calls);
        cache := cache[name := r];
        calls := calls + 1;
        fetchLog := fetchLog + [name];
      }
      expirations := expirations[name := now + cacheTime];
    }

    /** One run of the interval body at time `now`: walks every stamped
        name and deletes from `cache` each one whose stamp is strictly
        before `now`. Stamps are never deleted, and no entry is added or
        replaced. */
    method Sweep(now: int)
      requires Valid()
      modifies this
      ensures Valid()
      ensures Abstract() == SweepView(old(Abstract()), now)
      ensures cache == Swept(old(cache), expirations, now)
      ensures expirations == old(expirations) && fetchLog == old(fetchLog) && calls == old(calls)
    {
      var entries := expirations.Keys;
      while entries != {}
        invariant entries <= expirations.Keys
        invariant expirations == old(expirations) && fetchLog == old(fetchLog) && calls == old(calls)
        invariant cache.Keys <= old(cache).Keys
        invariant forall k :: k in cache ==> cache[k] == old(cache)[k]
        invariant forall k :: k in old(cache) ==>
          (k in cache <==> k in entries || !Expired(expirations, k, now))
        decreases entries
      {
        var name :| name in entries;
        if now > expirations[name] {
          cache := cache - {name};
        }
        entries := entries - {name};
      }
      assert cache.Keys == Survivors(old(cache).Keys, expirations, now);
    }
  }

  /** A handle outlives its eviction. A resource requested at `t0` and
      resolved keeps its value after a sweep at `now`, past its stamp,
      evicts it; the next request for the name returns a distinct, pending
      resource around a second fetch. */
  method EvictionKeepsHandles<T>(fetch: (string, nat) -> T, cacheTime: int, name: string, value: T, t0: int, now: int, later: int)
    returns (first: Resource<T>, second: Resource<T>)
    requires now > t0 + cacheTime
    ensures first != second
    ensures first.Read() == Value(value)
    ensures second.Read() == Suspend(fetch(name, 1))
  {
    var provider := new PokemonCache(fetch, cacheTime);
    first := provider.Get(name, t0);
    first.Resolve(value);
    provider.Sweep(now);
    assert name !in provider.cache;
    second := provider.Get(name, later);
  }

  /** A provider built without a cache time stamps names 5000 ms ahead. */
  method DefaultCacheTime<T>(fetch: (string, nat) -> T, name: string, now: int) returns (stamp: int)
    ensures stamp == now + 5000
  {
    var provider := new PokemonCache(fetch);
    var _ := provider.Get(name, now);
    stamp := provider.expirations[name];
  }
}
