# Suspense resources and an expiring resource cache, in Dafny

This project models the two pieces of sequential logic behind the data
fetching in the React Suspense exercises.

- **The promise-backed resource** (`createResource`, src/exercise/01.js).
  It has two mutable variables. `status` starts as `'pending'`. `result`
  starts as the promise chained onto the fetch. The fulfil handler sets
  `'resolved'` and the value. The reject handler sets `'error'` and the
  reason. `read` throws the promise while pending (Suspense suspends on it).
  It throws `result` when the status is `'rejected'`, and otherwise returns
  `result`. The module `AsyncResource` holds a class `Resource<T>` with the
  fields `status` and `result`, the methods `Resolve` and `Reject`, and a
  function `Read`. `Read` returns `Suspend(x)`, `Throw(x)` or `Value(x)`
  where the source throws or returns.
- **The expiring keyed cache** (`PokemonCacheProvider`, src/exercise/04.js).
  It keeps two dictionaries: `cache` (name to resource) and `expirations`
  (name to timestamp). `getPokemonResource(name)` reuses the cached
  resource or creates one through `createPokemonResource`. Either way it
  re-stamps `expirations[name]` to `now + cacheTime` (touch on access). An
  interval body walks `expirations` and deletes from `cache` every name
  whose stamp is strictly before now. It never deletes a stamp. The module
  `ResourceCache` holds a class `PokemonCache<T>` with two `map` fields and
  the methods `Get(name, now)` and `Sweep(now)`. `Sweep` is a loop over the
  stamped names, with invariants. A `calls` field counts the calls to the
  fetch function, and a ghost `fetchLog` records the names fetched, in order.
- **The cache's specification** (module `CacheSpec`). This is a pure view
  of the cache state: the cached names, the stamps and the fetch log. It has
  one step function per call, and lemmas about runs of many calls. After
  every call, the class's `Abstract()` equals the step function applied to
  its previous view.

Time is an integer parameter. The fetch function is a parameter,
`fetch: (string, nat) -> T`, fixed when the cache is built. It gives the
in-flight promise of a fetch of a name, given how many fetches were issued
before it, so that a second fetch of the same name can be a different
promise. JavaScript values are untyped, so one type parameter `T`
stands for promises, values and rejection reasons alike.

The model follows the code where the component's intended design says
otherwise:
- the code does not validate keys and does not reject empty ones;
- the sweep evicts only when `now > time` strictly, so a name stamped
  exactly `now` stays cached;
- a lookup reuses any entry still in `cache`, even one whose stamp has
  passed but that no sweep has removed yet;
- a failed resource's `read` returns the reason instead of propagating it
  (see Findings).

## Model

| member | source | states |
|---|---|---|
| AsyncResource.Resource.constructor | src/exercise/01.js:7-10 | a new resource is pending, and `result` is the chained promise |
| AsyncResource.Resource.Resolve | src/exercise/01.js:11-14 | the fulfil handler runs only on a pending resource; it leaves status 'resolved' and `result` the value, a settled state no handler may leave |
| AsyncResource.Resource.Reject | src/exercise/01.js:15-17 | the reject handler runs only on a pending resource; it leaves status 'error' (not 'rejected') and `result` the reason |
| AsyncResource.Resource.Read | src/exercise/01.js:20-24 | as written: suspends with `result` iff pending, throws iff the status is 'rejected', and returns `result` for 'resolved' and for 'error'; it reads the state without changing it, so repeated reads agree |
| AsyncResource.ReadNeverThrows | src/exercise/01.js:15-23 | on every state the handlers can produce, the as-written read never throws, and a rejected resource's read returns its reason as a value |
| AsyncResource.Resource.ReadIntended | src/exercise/01.js:20-24 | corrected read: suspends iff pending, throws `result` iff the resource failed, and returns the value iff resolved |
| AsyncResource.RejectedReadReturnsReason | src/exercise/01.js:7-23 | a new resource whose promise rejects with a reason returns that reason from the as-written read as a value, while the corrected read throws it |
| AsyncResource.IntendedReadThrowsOnError | src/exercise/01.js:15-23 | the corrected read throws the reason recorded by the reject handler, and agrees with the as-written read on every other state |
| CacheSpec.Survivors | src/exercise/04.js:57-61 | a name survives a sweep at `now` iff it was present and has no stamp or a stamp `>= now`; survivors are a subset of the names before |
| CacheSpec.Swept | src/exercise/04.js:57-61 | after a sweep the cache holds exactly the survivors, each with its old resource; nothing is added or replaced |
| CacheSpec.SweptIdempotent | src/exercise/04.js:57-61 | sweeping twice at the same `now` leaves the same cache as sweeping once |
| CacheSpec.Request | src/exercise/04.js:43-51 | after a request the name is cached with stamp `now + cacheTime`, on a hit and on a miss; a miss adds exactly one fetch and a hit none; no other name's membership, stamp or fetch count changes |
| CacheSpec.SweepView | src/exercise/04.js:57-61 | a sweep keeps exactly the cached names that are not strictly expired and leaves stamps and fetches untouched |
| CacheSpec.RunConsistent | src/exercise/04.js:43-61 | any run of requests and sweeps keeps every cached name stamped and fetched |
| CacheSpec.RunExtendsFetches | src/exercise/04.js:44-47 | the fetch log of any run extends the initial one; no fetch is ever undone |
| CacheSpec.StaysCachedUntil | src/exercise/04.js:44-59 | a name stamped at or after a deadline stays cached, and is not fetched again, through any requests and sweeps made within the cache time before that deadline |
| CacheSpec.OneFetchPerWindow | src/exercise/04.js:43-61 | a request for a name at `t0`, followed by any requests and sweeps in `[t0, t0 + cacheTime]`, fetches that name exactly once if it was absent and never if it was cached, and leaves it cached |
| CacheSpec.TouchExtendsLiveness | src/exercise/04.js:49-59 | after requests at `t0` and then `t1`, a sweep at any time up to `t1 + cacheTime` keeps the name; after the request at `t0` alone, a sweep after `t0 + cacheTime` evicts it |
| CacheSpec.EvictedNameRefetched | src/exercise/04.js:44-59 | once a sweep evicts a strictly expired name, the next request for it issues exactly one new fetch |
| ResourceCache.CreatePokemonResource | src/exercise/04.js:73-75 | creates a new, pending resource around the promise of this fetch of the name |
| ResourceCache.PokemonCache.constructor | src/exercise/04.js:38-40 | the provider starts with an empty cache and no stamps, and keeps its cache time, which defaults to 5000 as the prop does |
| ResourceCache.DefaultCacheTime | src/exercise/04.js:38-49 | a provider built without a cache time stamps a requested name `now + 5000` |
| ResourceCache.PokemonCache.Get | src/exercise/04.js:43-51 | a hit returns the cached resource and fetches nothing; a miss issues the next fetch, creates exactly one new pending resource around its promise, stores it under the name and returns it; the stamp becomes `now + cacheTime` either way; no other entry or stamp changes; no two names share a resource |
| ResourceCache.PokemonCache.Sweep | src/exercise/04.js:57-61 | removes from `cache` exactly the names whose stamp is strictly before `now`; stamps and the remaining resources are unchanged |
| ResourceCache.EvictionKeepsHandles | src/exercise/04.js:44-59 | for any name, cache time and times: a handle requested at `t0` and resolved still reads its value after a sweep past `t0 + cacheTime` evicts its name; the next request returns a distinct, pending resource around the second fetch |

## Findings

| source | as written | input that shows it | evidently intended | confidence | as-written member | corrected member |
|---|---|---|---|---|---|---|
| src/exercise/01.js:16-22 | the reject handler sets status `'error'`, but `read` throws only for `'rejected'`, so a failed fetch's `read` returns the rejection reason as if it were the data | a fetch that rejects with reason `e`: after the reject handler runs, `read()` returns `e` | `read` throws the reason so that the error boundary receives it | high, not executed | AsyncResource.RejectedReadReturnsReason | AsyncResource.Resource.ReadIntended |

The as-written `Read` is kept as the model of `read`, and the eviction
scenario `EvictionKeepsHandles` states its reads with it. The two reads
agree on pending and resolved resources (`IntendedReadThrowsOnError`).

## Left out

- React rendering and context: `PokemonInfo`, `App`, `AppWrapper`, `PokemonContext`, `usePokemonContext`, the hooks, `SUSPENSE_CONFIG`, error boundaries and Suspense fallbacks are presentation, not cache or resource logic.
- The timer: `setInterval` every 1000 ms and its `clearInterval` teardown are not modelled; each firing is one explicit `Sweep(now)` call.
- The clock: `Date.now()` is replaced by the `now` parameter. The source reads the clock again for each entry during a sweep; the model uses one instant per sweep.
- `fetchPokemon` (network I/O) is the `fetch` parameter. Promise scheduling is not modelled: settling is an explicit call to `Resolve` or `Reject`.
- AsyncResource.Resource.Resolve, AsyncResource.Resource.Reject: both require a pending resource, because a promise calls at most one of its two handlers, at most once. The handler bodies themselves do not check the status.
- ResourceCache.CreatePokemonResource: `fetchPokemon(name)` and the `.then(...)` that `createResource` chains onto it are one injected function, so the model has no separate promise for the fetch itself. Each call is told its position in the fetch log. The model does not assume that promises from different calls differ.
- The `createResource` that 04.js imports from `../utils` (04.js:12) is not part of this model. The 01.js version stands in for it, and nothing is claimed about the other one.
- The module-level `resource` created at 01.js:28 is a side-effecting top-level call and is not modelled.
- The iteration order of `Object.entries` is not modelled: the sweep visits the stamped names in an arbitrary order. The deletions commute, so the result does not depend on the order.
- JavaScript objects used as dictionaries inherit prototype properties. A name such as `"constructor"` finds an inherited, truthy value, and `"__proto__"` cannot be stamped. The model's maps have no prototype, and these names behave like any other.
- Timestamps are unbounded integers. Floating-point milliseconds and their precision limits are not modelled.
