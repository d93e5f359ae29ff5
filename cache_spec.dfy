/**
 The expiring keyed resource cache of `PokemonCacheProvider`
 (src/exercise/04.js), as values.

 The provider keeps two dictionaries: `cache` (name to resource) and
 `expirations` (name to a timestamp). `getPokemonResource(name)` reuses or
 creates the resource and re-stamps the name's expiration on every call;
 a periodic sweep deletes from `cache` every name whose stamp is strictly
 before the current time, and never deletes stamps.

 Resources are objects and cannot be made by a function, so this module
 abstracts them away: a `View` records which names are cached, the stamps,
 and the ordered log of names fetched. The class in ResourceCache ties its
 state to a `View` after each call; the lemmas here are about sequences of
 calls, time being a plain integer.
 */
module CacheSpec {

  /** The sweep's test `Date.now() > time` for a name's stamp. */
  predicate Expired(expirations: map<string, int>, name: string, now: int)
  {
    name in expirations && now > expirations[name]
  }

  /** The names a sweep at `now` leaves in place. */
  function Survivors(keys: set<string>, expirations: map<string, int>, now: int): (s: set<string>)
    ensures s <= keys
    ensures forall k :: k in s <==> k in keys && (k !in expirations || expirations[k] >= now)
  {
    set k | k in keys && !Expired(expirations, k, now)
  }

  /** The cache dictionary after a sweep at `now`: the survivors keep their
      resources, nothing is added or replaced. */
  function Swept<V>(cache: map<string, V>, expirations: map<string, int>, now: int): (r: map<string, V>)
    ensures r.Keys == Survivors(cache.Keys, expirations, now)
    ensures forall k :: k in r ==> r[k] == cache[k]
  {
    map k | k in Survivors(cache.Keys, expirations, now) :: cache[k]
  }

  /** A second sweep at the same instant removes nothing more. */
  lemma SweptIdempotent<V>(cache: map<string, V>, expirations: map<string, int>, now: int)
    ensures Swept(Swept(cache, expirations, now), expirations, now) == Swept(cache, expirations, now)
  {
  }

  /** The cache's state without the resources themselves. */
  datatype View = View(cached: set<string>, expirations: map<string, int>, fetches: seq<string>)

  /** What the provider maintains: every cached name has a stamp and has
      been fetched. */
  ghost predicate Consistent(v: View)
  {
    v.cached <= v.expirations.Keys && forall k :: k in v.cached ==> k in v.fetches
  }

  /** How many fetches were issued for `name`. */
  function FetchCount(v: View, name: string): nat
  {
    multiset(v.fetches)[name]
  }

  /** `getPokemonResource(name)` at time `now`. Afterwards the name is
      cached with stamp `now + cacheTime`, on a hit and on a miss; a miss
      issues exactly one fetch and a hit none; no other name's membership,
      stamp or fetch count changes. */
  function Request(v: View, name: string, now: int, cacheTime: int): (w: View)
    ensures name in w.cached && name in w.expirations && w.expirations[name] == now + cacheTime
    ensures FetchCount(w, name) == FetchCount(v, name) + (if name in v.cached then 0 else 1)
    ensures forall k :: k != name ==> (k in w.cached <==> k in v.cached)
    ensures forall k :: k != name ==> FetchCount(w, k) == FetchCount(v, k)
    ensures forall k :: k != name && k in v.expirations ==> k in w.expirations && w.expirations[k] == v.expirations[k]
    ensures forall k :: k != name && k in w.expirations ==> k in v.expirations
  {
    View(v.cached + {name},
         v.expirations[name := now + cacheTime],
         if name in v.cached then v.fetches else v.fetches + [name])
  }

  /** The interval body at time `now`: a name stays cached iff it was
      cached and is not strictly expired; stamps and fetches are untouched. */
  function SweepView(v: View, now: int): (w: View)
    ensures w.cached <= v.cached && w.expirations == v.expirations && w.fetches == v.fetches
    ensures forall k :: k in w.cached <==> k in v.cached && (k !in v.expirations || v.expirations[k] >= now)
  {
    View(Survivors(v.cached, v.expirations, now), v.expirations, v.fetches)
  }

  /** The calls a provider receives over time. */
  datatype Op = Access(name: string, now: int) | Tick(now: int)

  function Step(v: View, op: Op, cacheTime: int): View
  {
    match op
    case Access(name, now) => Request(v, name, now, cacheTime)
    case Tick(now) => SweepView(v, now)
  }

  function Run(v: View, ops: seq<Op>, cacheTime: int): View
    decreases |ops|
  {
    if ops == [] then v else Run(Step(v, ops[0], cacheTime), ops[1..], cacheTime)
  }

  /** Both calls keep the provider's invariant. */
  lemma {:induction false} RunConsistent(v: View, ops: seq<Op>, cacheTime: int)
    requires Consistent(v)
    ensures Consistent(Run(v, ops, cacheTime))
    decreases |ops|
  {
    if ops != [] {
      var w := Step(v, ops[0], cacheTime);
      assert Consistent(w);
      RunConsistent(w, ops[1..], cacheTime);
    }
  }

  /** The fetch log only grows: nothing ever un-issues a fetch. */
  lemma {:induction false} RunExtendsFetches(v: View, ops: seq<Op>, cacheTime: int)
    ensures v.fetches <= Run(v, ops, cacheTime).fetches
    decreases |ops|
  {
    if ops != [] {
      var w := Step(v, ops[0], cacheTime);
      RunExtendsFetches(w, ops[1..], cacheTime);
    }
  }

  /** A name stamped no earlier than `deadline` stays cached through any
      calls made in the window [deadline - cacheTime, deadline], and is not
      fetched again: a request re-stamps it to at least `deadline`, and a
      sweep at a time up to `deadline` does not find it strictly expired. */
  lemma {:induction false} StaysCachedUntil(v: View, ops: seq<Op>, name: string, deadline: int, cacheTime: int)
    requires name in v.cached && name in v.expirations && v.expirations[name] >= deadline
    requires forall i :: 0 <= i < |ops| ==> deadline - cacheTime <= ops[i].now <= deadline
    ensures var w := Run(v, ops, cacheTime);
      name in w.cached && name in w.expirations && w.expirations[name] >= deadline
      && FetchCount(w, name) == FetchCount(v, name)
    decreases |ops|
  {
    if ops != [] {
      var w := Step(v, ops[0], cacheTime);
      assert name in w.cached && name in w.expirations && w.expirations[name] >= deadline;
      assert FetchCount(w, name) == FetchCount(v, name);
      StaysCachedUntil(w, ops[1..], name, deadline, cacheTime);
    }
  }

  /** At most one fetch per name per window: a request for `name` at `t0`,
      followed by any requests and sweeps during [t0, t0 + cacheTime],
      fetches `name` once if it was not cached and never if it was, and
      leaves it cached. */
  lemma OneFetchPerWindow(v: View, name: string, t0: int, ops: seq<Op>, cacheTime: int)
    requires forall i :: 0 <= i < |ops| ==> t0 <= ops[i].now <= t0 + cacheTime
    ensures var w := Run(v, [Access(name, t0)] + ops, cacheTime);
      name in w.cached
      && FetchCount(w, name) == FetchCount(v, name) + (if name in v.cached then 0 else 1)
  {
    var first := Step(v, Access(name, t0), cacheTime);
    assert ([Access(name, t0)] + ops)[1..] == ops;
    StaysCachedUntil(first, ops, name, t0 + cacheTime, cacheTime);
  }

  /** Touch on access: a request at `t1` after one at `t0` keeps the name
      alive for sweeps up to `t1 + cacheTime`, whereas without the second
      request a sweep after `t0 + cacheTime` evicts it. */
  lemma TouchExtendsLiveness(v: View, name: string, t0: int, t1: int, now: int, cacheTime: int)
    ensures now <= t1 + cacheTime ==>
      name in SweepView(Run(v, [Access(name, t0), Access(name, t1)], cacheTime), now).cached
    ensures now > t0 + cacheTime ==>
      name !in SweepView(Run(v, [Access(name, t0)], cacheTime), now).cached
  {
    var ops := [Access(name, t0), Access(name, t1)];
    var once := Request(v, name, t0, cacheTime);
    assert ops[1..] == [Access(name, t1)] && [Access(name, t1)][1..] == [];
    assert Run(v, ops, cacheTime) == Run(once, [Access(name, t1)], cacheTime);
    assert Run(v, [Access(name, t0)], cacheTime) == once;
  }

  /** After a sweep evicts a name, the next request for it misses and
      issues a new fetch. */
  lemma EvictedNameRefetched(v: View, name: string, now: int, later: int, cacheTime: int)
    requires name in v.cached && Expired(v.expirations, name, now)
    ensures name !in SweepView(v, now).cached
    ensures FetchCount(Request(SweepView(v, now), name, later, cacheTime), name) == FetchCount(v, name) + 1
  {
  }
}
