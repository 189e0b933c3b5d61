# recache, modelled in Dafny

recache is a cache-aside layer in Go, sitting between an application and its
database, with a Redis server as the cache. `Query(key, target, loader)`
reads the key from Redis. If the key is missing, it runs the caller's loader
against the database. A found value is stored back with a jittered expiry. A
record the database does not have is stored as the placeholder `"*"`. The
placeholder is meant to keep the next lookup away from the database, but as
written it does not (see Findings). `Exec` runs a database write and then
deletes the affected keys. A `stat` object counts calls, hits, misses and
loader failures, and a ticker reports and resets those counters.

This project models `cache.go` and `stat.go`:

- `base.dfy` (module `Base`) holds `Option`, `Result` and the errors the cache
  tells apart: `redis.Nil`, `errPlaceHolder`, `ErrNotFound` and any other
  failure.
- `store.dfy` (module `Store`) models the Redis server as a map from key to
  `(string, ttl)`. Every call made through the circuit breaker gets an outcome
  from the environment (`Call = Pass | Fault(reason)`), and a failed call
  changes nothing.
- `json.dfy` (module `Json`) models `encoding/json` as an abstract codec. Every
  Get property assumes that `"*"` does not decode (`RejectsStar`). The
  round-trip lemmas `SetThenGet` and `QueryPopulatesCache` also assume that
  every value that marshals decodes back to itself (`RoundTrips`).
- `stat.dfy` (module `Stats`) holds the counters as a value (`Counters`).
  `Incremented` and `TickStep` are the step functions. The class `Stat`
  updates the counters in place, and each of its methods is proved equal to
  the step function for that call.
- `cache.dfy` (module `Recache`) gives each operation as a step function on
  `State`, which holds the store, the counters and the log. The class `Cache`
  performs each step in place, and each method is proved equal to its step
  function. The request coalescer is modelled as the run of the caller that
  executes, and whether that caller is `shared` is an input. The loader's
  `(found, err)` answer is an input (`Load`). The random fraction used by
  `randExpire` is an input (`Fraction`, a value in [0, 1)).
- `cache_props.dfy` (module `CacheProperties`) holds properties that relate
  several operations, or an operation and the counters' invariant.

In these places cache.go and stat.go do something other than what their
names, comments or callers suggest, and the model follows the code:

- A failed Redis read, whether a transport error or a breaker rejection, is
  returned to `Query`'s caller. Only `redis.Nil` reaches the loader
  (`StoreFaultsSurface`).
- An entry that fails to decode counts neither as a hit nor as a miss
  (`Recache.Unmarshal`).
- `randExpire` can return zero seconds (`RandExpire` with fraction 0). In
  go-redis an expiry of zero means the key never expires.
- `stat.go` does not match what `cache.go` calls. cache.go:140 calls
  `incrementShared`, which stat.go does not have. cache.go:175 calls
  `NewStat(log, interval)`, but stat.go:19 declares `NewStat(name)`. The
  model adds a `shared` counter with the same increment contract as the
  others. The reporting tick does not touch it, because stat.go has no such
  counter. The `Stat` constructor takes stat.go's `name`, and `Cache` passes
  the empty name.
- `Query` logs "set placeholder fail" after every placeholder write, even a
  successful one (`SpuriousPlaceholderWarning`).

## Model

| member | source | states |
|---|---|---|
| `Stats.Incremented` | stat.go:34-48 | an increment raises its own counter by exactly one and leaves every other counter unchanged |
| `Stats.HitPercent` | stat.go:57-58 | the hit ratio is only defined when `total > 0`; it is `100 * hit / total`, and it lies in [0, 100] when `hit <= total` |
| `Stats.TickStep` | stat.go:51-62 | a tick reports exactly when the swapped-out `total` is non-zero; the report holds exactly the swapped-out values; an empty window leaves the counters alone; after a report, total, hit, miss and dbFails are all zero |
| `Stats.SkippedTickHidesNothing` | stat.go:52-55 | under the cache's counter invariant, a tick that finds `total` at zero skips the report and leaves no hit, miss or loader failure waiting |
| `Stats.TickKeepsConsistent` | stat.go:52-60 | a tick keeps `hit + miss <= total` and `dbFails <= total` |
| `Stats.NothingLostOrDoubled` | stat.go:50-63 | over any history of increments and ticks, each increment is either in exactly one emitted report or still held by its counter |
| `Stats.Stat.constructor` | stat.go:19-22 | a new stat has every counter at zero |
| `Stats.Stat.IncrementTotal` | stat.go:34-36 | adds one to `total` and changes nothing else |
| `Stats.Stat.IncrementHit` | stat.go:38-40 | adds one to `hit` and changes nothing else |
| `Stats.Stat.IncrementMiss` | stat.go:42-44 | adds one to `miss` and changes nothing else |
| `Stats.Stat.IncrementDbFails` | stat.go:46-48 | adds one to `dbFails` and changes nothing else |
| `Stats.Stat.IncrementShared` | cache.go:140 | adds one to the added `shared` counter and changes nothing else |
| `Stats.Stat.Tick` | stat.go:50-63 | one loop pass swaps `total` to zero, and only on a non-empty window swaps `hit`, `miss` and `dbFails` to zero; the new counters and the report are those of `TickStep` |
| `Store.Read` | cache.go:45-52 | a read succeeds exactly when the call goes through and the key is present, and then yields the stored string; an absent key gives `redis.Nil`; a failed call gives its own error |
| `Recache.Ceil` | cache.go:93 | the least integer not below its argument |
| `Recache.JitterSeconds` | cache.go:93 | the drawn number of seconds, ceil(fraction * D), lies in [0, ceil(D)] when D >= 0 and in [ceil(D), 0] when D < 0; it is zero for fraction zero and at least one when D > 0 and the fraction is positive |
| `Recache.RandExpire` | cache.go:91-95 | the expiry is a whole number of seconds; for a base expiry of D seconds with D >= 0 it lies in [0, ceil(D)]; it is zero when the fraction is zero, and at least one second when D > 0 and the fraction is positive |
| `Recache.DelStep` | cache.go:73-85 | no keys gives success with no store call; otherwise one call removes exactly the given keys and leaves every other entry, or fails with the store's error returned, one `DelFail` line appended to the log and the store unchanged; a success leaves the log as it was; counters are never touched |
| `Recache.SetWithExpireStep` | cache.go:97-105 | a marshal error is returned with nothing written; otherwise the marshalled string is stored under the key with exactly the given TTL, unless the write fails, in which case the store is unchanged |
| `Recache.SetStep` | cache.go:87-89 | a successful Set stores the marshalled value under the key, changes no other entry, and gives it a whole-second TTL within [0, ceil(expire)] |
| `Recache.SetPlaceHolderStep` | cache.go:145-149 | a successful write stores `"*"` under the key with a jittered TTL; a failed write returns the store's error and changes nothing |
| `Recache.Unmarshal` | cache.go:57-66 | an entry that does not decode gives `redis.Nil`, counts neither hit nor miss, and is deleted when the delete goes through; the log gains the unmarshal-failure line, followed, when the delete fails, by the delete's failure line and the invalid-key line; a decoded entry counts one hit |
| `Recache.GetStep` | cache.go:42-71 | `total` rises by one on every call; a failed read counts a miss and returns that error unchanged, touching nothing else; an undecodable entry returns `redis.Nil` with no hit or miss, deletes the key when it can, and logs as `Unmarshal` says; a decoded entry counts one hit and returns `errPlaceHolder` iff the stored string is `"*"` |
| `Recache.GetStepFixed` | cache.go:57-70 | with the placeholder test moved before decoding, a `"*"` entry counts a hit and returns `errPlaceHolder` with the store untouched; on every other entry it agrees with `GetStep` |
| `Recache.Resolve` | cache.go:108-134 | the loader runs iff Get returned `redis.Nil`; a loader error is counted in `dbFails` and returned with nothing written; not-found writes the placeholder and returns `ErrNotFound`; found writes the value and returns it; `errPlaceHolder` becomes `ErrNotFound`; any other Get error is returned as it is |
| `Recache.Account` | cache.go:135-142 | a shared caller is counted in `total` and `shared` only when the result is nil or `ErrNotFound`; the result itself is unchanged |
| `Recache.QueryStep` | cache.go:107-143 | the loader runs iff Get returned `redis.Nil`; the result is nil, `ErrNotFound`, Get's own error when that is neither `redis.Nil` nor `errPlaceHolder`, or, when Get returned `redis.Nil`, the loader's error |
| `Recache.QueryStepFixed` | cache.go:107-143 | the same Query over the corrected Get: the loader runs iff that Get returned `redis.Nil` |
| `Recache.ExecStep` | cache.go:151-157 | a failed database write is returned with nothing deleted; otherwise the result is that of `Del(keys)` |
| `Recache.Cache.constructor` | cache.go:159-193 | a new cache talks to the given store, with fresh zero counters and an empty log; its expiry is the last `WithExpire` option given, or one minute with none |
| `Recache.Cache.Get` | cache.go:42-71 | changes the store, the counters and the log, and returns the error and value, exactly as `GetStep` says |
| `Recache.Cache.Del` | cache.go:73-85 | changes the store and the log, and returns the error, exactly as `DelStep` says |
| `Recache.Cache.Set` | cache.go:87-89 | performs `SetStep` in place |
| `Recache.Cache.SetWithExpire` | cache.go:97-105 | performs `SetWithExpireStep` in place |
| `Recache.Cache.SetPlaceHolder` | cache.go:145-149 | performs `SetPlaceHolderStep` in place |
| `Recache.Cache.Query` | cache.go:107-143 | performs `QueryStep` in place, and returns the error, the value and whether the loader ran |
| `Recache.Cache.Exec` | cache.go:151-157 | performs `ExecStep` in place |
| `CacheProperties.GetKeepsConsistent` | cache.go:43-66 | Get keeps `hit + miss <= total` and `dbFails <= total` |
| `CacheProperties.QueryKeepsConsistent` | cache.go:107-142 | Query keeps `hit + miss <= total` and `dbFails <= total` |
| `CacheProperties.PlaceholderTakesCorruptPath` | cache.go:57-68 | because `"*"` is not JSON, a placeholder entry is deleted and reported as `redis.Nil`, with no hit and no miss |
| `CacheProperties.ErrPlaceHolderUnreachable` | cache.go:66-69 | Get never returns `errPlaceHolder`, so Query's branch for it (cache.go:127-128) is dead |
| `CacheProperties.NegativeCacheDefeated` | cache.go:117-120 | after a Query stores the placeholder for a key, the next Query for that key calls the loader again |
| `CacheProperties.NegativeCacheHolds` | cache.go:117-128 | with the corrected Get, the next Query for that key returns `ErrNotFound` without calling the loader, and the store is unchanged |
| `CacheProperties.StoreFaultsSurface` | cache.go:109-130 | a failed read is returned to Query's caller unchanged, the loader does not run, the store is untouched, and the call counts as one total and one miss |
| `CacheProperties.WriteOutcomeIrrelevant` | cache.go:117-126 | whether the cache write after a load succeeds never changes Query's result, value, loader call or counters |
| `CacheProperties.LoaderFailureNotCached` | cache.go:112-116 | a loader error is returned, counted once in `dbFails`, and nothing is written to the store |
| `CacheProperties.SpuriousPlaceholderWarning` | cache.go:117-120 | after a successful placeholder write, the last log line is still the "set placeholder fail" warning, with no error |
| `CacheProperties.QueryPopulatesCache` | cache.go:117-126 | after a Query loads and stores a value, a Get of the key is a hit that yields that value |
| `CacheProperties.SetThenGet` | cache.go:42-71 | a value written with SetWithExpire reads back as a hit with the same value |
| `CacheProperties.DelIdempotent` | cache.go:73-85 | a second Del of the same keys succeeds and changes nothing |
| `CacheProperties.ExecInvalidatesAfterWrite` | cache.go:151-157 | a failed database write leaves everything as it was; after a successful one whose delete goes through, none of the keys is cached and every other entry is unchanged |

## Left out

- The go-redis client and its wire protocol are replaced by a map and one `Call` outcome per store call. The model does not capture a write that fails after the server applied it.
- Expiry by the store is left out: entries keep their TTL but never expire in the model.
- The hystrix circuit breaker and `WithHystrixConfig` are left out. A breaker rejection, timeout or concurrency limit is one more `Fault`.
- The singleflight coalescer is left out. `Query` is modelled as the run of the caller that executes, and `shared` is an input. In the source, a waiting caller's target is never filled: `Query` assigns the coalesced value only to its own local `val`. The model returns that value in `QueryOut.value` and does not model the targets of waiting callers.
- `encoding/json` is abstract. A target partly filled by a failed Unmarshal is not modelled.
- Context cancellation and deadlines are left out.
- The ticker goroutine and the timing of ticks are left out. `Tick` is one pass of the loop. Ticks happen between operations, never inside one, so the races between increments and the swap are not modelled.
- The metrics HTTP server, `WithLogger`, `WithMetricsPort` and `WithStatInterval` are left out. Their only effect would be on logging or on a side process. The reporting interval is left out for the same reason: stat.go ticks on its own one-minute constant, and the ticks are calls to `Tick`. `Config` keeps only the expiry.
- logger.go's formatting is left out. The log is a sequence of `LogEvent`s, one per Errorf/Warnf call, and the tick returns its report instead of printing it. stat.go never sets `stat.log`, so the first non-empty report would call a nil logger; the model does not model that crash.
- example/main.go is a demo program, and it is not part of this model.
- Stats.Incremented: the counters are unbounded, so uint64 wrap-around after 2^64 increments is not modelled. Every `increment*` method inherits this.
- Recache.RandExpire: the arithmetic uses exact reals, so float64 rounding of `rand.Float64() * d.Seconds()` and int64 overflow of the resulting Duration are not modelled.
- Stats.HitPercent: the ratio is an exact real, so float32 arithmetic and `%.1f` rounding are not modelled.

## Findings

| source | as written | input that shows it | evidently intended | confidence | as-written member | corrected member |
|---|---|---|---|---|---|---|
| cache.go:57-69 | Get decodes the stored string before testing it for the placeholder `"*"`. `"*"` is not JSON, so the placeholder always takes the corrupt-entry path: it is deleted, `redis.Nil` is returned and the loader runs again. The negative cache never works, and `errPlaceHolder` is never returned. | A key whose loader reports not-found, queried twice in a row. The first Query stores `"*"`. The second reads it, fails to decode it, deletes it and calls the loader again. | A placeholder entry is reported as `errPlaceHolder`, so the second Query returns `ErrNotFound` without calling the loader. | high (not executed) | `CacheProperties.NegativeCacheDefeated` (over `Recache.GetStep`) | `Recache.GetStepFixed`, `CacheProperties.NegativeCacheHolds` |
