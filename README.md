# Currency rates server: expiring cache and rates service

This project models the rate-fetching core of a small currency-exchange proxy server.

- `CacheService.dfy` (module `Cache`) models the in-memory cache.
  - It is a key→entry table with one time-to-live shared by every entry.
  - `Set` overwrites an entry with the data and the current time.
  - `Get` returns the data only while `now - timestamp < cacheDuration`.
  - Expired entries are never purged.
  - The class `CacheService` holds the table in the field `cache`, which `Set` reassigns.
  - The pure functions `Lookup` and `Store` state what `Get` answers and what `Set` leaves behind. The lemmas are stated over these two functions.
- `RatesService.dfy` (module `Rates`) models the service that puts the cache in front of the exchange-rate provider.
  - The cache key is `"rates_" + base`.
  - On a hit, `GetRates` returns the cached response.
  - On a miss, it calls the provider. It fails on an unsuccessful response. On a successful one, it stores the response and returns it.
  - `ConvertCurrency` multiplies the amount by the target rate. It reports every failure as `"Error converting currency"`.
  - The class `RatesService` owns a `CacheService` and keeps a ghost log `providerCalls` of the base currencies sent to the provider.
  - The function `Step` gives the effect of one `GetRates` call: its result, the new cache, and whether the provider was called. Both methods are proved against `Step`.
  - `Replay` chains `Step` over a sequence of calls made one after another. The lemmas about repeated calls are stated over `Replay`.

Outside inputs are parameters:
- The wall clock is an explicit argument, in milliseconds. On a miss the source reads it twice: once in `get` before the provider is called, and once in `set` after the answer arrives (server/src/services/CacheService.js:20, 36). `GetRates` therefore takes two times: `now` for the lookup and `storedAt` for the stamp of a stored answer.
- The provider is a function `Provider = string -> Fetch`, fixed when the service is constructed. For a base currency it returns either the upstream payload (`Fetched(Response(success, rates, error))`) or its own failure (`FetchFailed`). `FetchFailed` stands for the provider's "Error fetching rates" exception.
- Asynchronous calls are modelled as ordinary sequential calls.
- Amounts and rates are `real`.

Details of the code that the model keeps:
- `convertCurrency`'s own `catch` replaces the `Invalid target currency` error with `"Error converting currency"` (server/src/services/RatesService.js:56-65). `Convert` does the same.
- The code tests the rate with `!rate`, so a rate of `0` is refused exactly like a missing one. `Convert` refuses a zero rate too.
- `getRates` has no default base. The HTTP routes supply `EUR` (server/src/routes/rates.js:43, 95), and they are not part of this model.

## Model

| member | source | states |
|---|---|---|
| `Cache.CacheService.constructor` | server/src/services/CacheService.js:9-12 | a new cache holds no entries and keeps the given duration |
| `Cache.CacheService.Get` | server/src/services/CacheService.js:19-28 | the result equals `Lookup`, which is the stored data exactly when the key is present and its age `now - timestamp` is below `cacheDuration`, and `None` otherwise. The method has no `modifies` clause, so it changes nothing: expired entries are not purged |
| `Cache.CacheService.Set` | server/src/services/CacheService.js:35-41 | the new table is `Store` of the old one: the entry for the key becomes `{data, timestamp: now}`; every other key keeps its entry; the key set grows by at most that key |
| `Cache.EmptyCacheMisses` | server/src/services/CacheService.js:9-12 | an empty cache answers no key at any time |
| `Cache.GetAfterSetWithinTtl` | server/src/services/CacheService.js:23-24 | after storing `d` at `t`, a lookup at any `now` with `now - t < ttl` returns exactly `d` |
| `Cache.GetAfterSetExpired` | server/src/services/CacheService.js:23-27 | after storing at `t`, a lookup at any `now` with `now - t >= ttl` returns nothing |
| `Cache.SetLeavesOtherKeys` | server/src/services/CacheService.js:37-40 | storing under one key leaves the lookup of every other key unchanged |
| `Cache.MissIsPermanent` | server/src/services/CacheService.js:23 | with no store in between, a key that misses at `now` misses at every later time |
| `Cache.NonPositiveTtlNeverHits` | server/src/services/CacheService.js:23 | with `ttl <= 0`, and no entry stamped later than `now`, no lookup returns a value |
| `Rates.CacheKey` | server/src/services/RatesService.js:74-76 | the key is the prefix `rates_` followed by the base currency, so the base can be read back from the key |
| `Rates.CacheKeyInjective` | server/src/services/RatesService.js:74-76 | distinct base currencies get distinct cache keys |
| `Rates.Step` | server/src/services/RatesService.js:28-44 | one `getRates` call never puts an unsuccessful response into a cache that held only successful ones; a successful result is a hit or a response flagged `success` |
| `Rates.HitSkipsProvider` | server/src/services/RatesService.js:29-35 | on a hit the call returns the cached response, leaves the cache unchanged and does not call the provider |
| `Rates.MissStoresSuccess` | server/src/services/RatesService.js:37-43 | on a miss with a successful response, the provider is called, the response is stored under `rates_<base>` stamped with the store time `storedAt`, and that same response is returned |
| `Rates.MissFailureCachesNothing` | server/src/services/RatesService.js:37-41 | on a miss where the provider fails, or answers with `success` false, the cache is unchanged. The error is `"Error fetching rates"` in the first case and `"Error fetching rates : " + error` in the second |
| `Rates.FetchedAnswerServesFromStoreTime` | server/src/services/RatesService.js:29-43 | after a successful fetch stored at `storedAt`, a call that looks up before `storedAt + ttl` returns that same response, leaves the cache unchanged and does not call the provider. The window starts at the store, not at the lookup that missed |
| `Rates.FailureIsRetried` | server/src/services/RatesService.js:29-41 | after a failed call, the next call for the same base at the same or a later time calls the provider again |
| `Rates.Replay` | server/src/services/RatesService.js:28-44 | sequential calls keep the cache free of unsuccessful responses and call the provider at most once per call |
| `Rates.NoRefetchWhileFresh` | server/src/services/RatesService.js:29-43 | while the entry stored for a base at `t` is fresh, no sequence of calls changes it. The provider is never called for that base, whatever calls for other bases come in between |
| `Rates.AtMostOneFetchPerWindow` | server/src/services/RatesService.js:29-43 | after a successful fetch for a base whose answer was stored at `t`, no later call for that base that looks up before `t + ttl` calls the provider |
| `Rates.Convert` | server/src/services/RatesService.js:56-65 | the conversion succeeds exactly when the rates were obtained and the target rate is present and non-zero. It then returns `amount * rate`. Every failure carries exactly `"Error converting currency"` |
| `Rates.ConvertExample` | server/tests/services/RatesService.test.js:44-68 | 100 at a USD rate of 1.2 converts to 120; an unknown target fails with the conversion message |
| `Rates.RatesService.constructor` | server/src/services/RatesService.js:12-15 | the service keeps the provider and builds an empty cache with the given duration, which defaults to 600000 ms |
| `Rates.RatesService.GetRates` | server/src/services/RatesService.js:28-44 | the result and the new cache are those of `Step` on the old cache, with the lookup at `now` and a fetched answer stamped `storedAt`. The provider-call log grows by the base exactly when the cache missed. A successful result is a response flagged `success`. The cache keeps only successful responses |
| `Rates.RatesService.ConvertCurrency` | server/src/services/RatesService.js:54-66 | the result is `Convert` applied to the `getRates` outcome for `from`. The cache and the provider-call log change exactly as in that `getRates` call |

## Left out

- The provider's HTTP client (server/src/services/FixerApi.js) is replaced by the injected `Provider` function. That function is deterministic per base currency, so the model does not capture upstream rates that change between calls.
- The HTTP routes, server start-up and environment configuration (server/src/routes/rates.js, server/app.js) are not part of this model. This includes the query defaults (`EUR`, `USD`) and the `parseFloat(...) || 0` coercion of the amount.
- The browser widget, its service client and its stories (web/oc-rates-app) are not part of this model.
- Floating point: `amount * rate` is exact multiplication on `real`. Rounding, `NaN` and infinities are not modelled. A `NaN` rate, which `!rate` also refuses, cannot occur.
- Rates.Response: the upstream `error` field is modelled as the text that string concatenation makes of it. The payload fields `base` and `date` are not modelled, because the service only passes them through.
- Rates.Convert: a successful payload always carries a `rates` table in the model. So the source's failure on a payload without one, which its `catch` also turns into `"Error converting currency"`, is not a separate case.
- Cache.CacheService.Get: a lookup answers `Option`, so stored data that JavaScript would read as falsy (`null`, `0`, `""`) is still a hit in the model. The service only ever stores response objects, which are always truthy, so `getRates` behaves the same.
- Keys are plain strings. The behaviour of JavaScript object keys that clash with inherited properties (`__proto__`, `constructor`) is not modelled.
- The two clock readings of a call are independent arguments. The model does not require `storedAt >= now`, because the source's wall clock does not promise that either.
- A `cacheDuration` that is not a number, which makes every comparison false, is not modelled; durations are integers.
- Logging (`console.log`) is left out.
- The race between two concurrent misses for the same base is left out, because calls are sequential in the model.
