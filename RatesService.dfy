/**
 * The rates service: an expiring cache in front of an exchange-rate provider.
 *
 * `GetRates` answers from the cache while the entry for the base currency is
 * fresh; otherwise it asks the provider, refuses a response flagged as
 * unsuccessful (without caching it), and stores and returns a successful one.
 * `ConvertCurrency` multiplies an amount by one rate of those responses and
 * reports every failure on its way as the one message "Error converting currency".
 *
 * The provider is an injected function from a base currency to what the
 * upstream returns, and calls are sequential. The clock is read twice on a
 * miss: `now` is the time of the cache lookup, and `storedAt` is the later
 * time at which the provider's answer is stored.
 */
module Rates {
  import opened Cache

  datatype Result<T> = Ok(value: T) | Err(message: string)

  /** The upstream payload: its success flag, the rates by currency code and its error text. */
  datatype Response = Response(success: bool, rates: map<string, real>, error: string)

  /** What one provider call yields: a payload, or the provider's own failure. */
  datatype Fetch = Fetched(response: Response) | FetchFailed

  type Provider = string -> Fetch
  type RatesCache = map<string, Entry<Response>>

  /** Ten minutes, in milliseconds. */
  const DefaultCacheDuration: int := 10 * 60 * 1000

  const KeyPrefix: string := "rates_"
  /** The message the provider fails with when the upstream cannot be reached. */
  const FetchFailedMessage: string := "Error fetching rates"
  /** The prefix of the message when the upstream answers with `success` false. */
  const RejectedPrefix: string := "Error fetching rates : "
  const ConversionFailedMessage: string := "Error converting currency"

  /** The cache key of a base currency: the base behind a fixed prefix. */
  function CacheKey(base: string): (key: string)
    ensures |key| == |KeyPrefix| + |base|
    ensures key[..|KeyPrefix|] == KeyPrefix
    ensures key[|KeyPrefix|..] == base
  {
    KeyPrefix + base
  }

  /** Distinct base currencies never share a cache entry. */
  lemma CacheKeyInjective(a: string, b: string)
    requires CacheKey(a) == CacheKey(b)
    ensures a == b
  {
  }

  /** Every response kept in the cache is one the upstream flagged as successful. */
  predicate AllSuccessful(m: RatesCache)
  {
    forall k :: k in m ==> m[k].data.success
  }

  /** The effect of one `GetRates` call: its result, the new cache, and whether the provider was asked. */
  datatype Outcome = Outcome(result: Result<Response>, cache: RatesCache, fetched: bool)

  /**
   * One `GetRates` call for `base` on the cache `m`: the lookup happens at
   * `now`, and a successful answer is stamped with `storedAt`, the time the
   * clock shows once the provider has answered.
   */
  function Step(m: RatesCache, ttl: int, provider: Provider, base: string, now: int, storedAt: int): (o: Outcome)
    ensures AllSuccessful(m) ==> AllSuccessful(o.cache)
    ensures o.result.Ok? ==> o.result.value.success || Lookup(m, ttl, CacheKey(base), now).Some?
  {
    var key := CacheKey(base);
    match Lookup(m, ttl, key, now)
    case Some(cached) => Outcome(Ok(cached), m, false)
    case None =>
      match provider(base)
      case FetchFailed => Outcome(Err(FetchFailedMessage), m, true)
      case Fetched(response) =>
        if !response.success then Outcome(Err(RejectedPrefix + response.error), m, true)
        else Outcome(Ok(response), Store(m, key, response, storedAt), true)
  }

  /** The converted amount, given the outcome of fetching the rates of the source currency. */
  function Convert(rates: Result<Response>, to: string, amount: real): (r: Result<real>)
    ensures r.Ok? <==> rates.Ok? && to in rates.value.rates && rates.value.rates[to] != 0.0
    ensures r.Ok? ==> r.value == amount * rates.value.rates[to]
    ensures r.Err? ==> r.message == ConversionFailedMessage
  {
    match rates
    case Err(_) => Err(ConversionFailedMessage)
    case Ok(response) =>
      if to !in response.rates || response.rates[to] == 0.0 then Err(ConversionFailedMessage)
      else Ok(amount * response.rates[to])
  }

  /** A hit returns the cached response, leaves the cache as it was and asks no provider. */
  lemma HitSkipsProvider(m: RatesCache, ttl: int, provider: Provider, base: string, now: int, storedAt: int)
    requires Lookup(m, ttl, CacheKey(base), now).Some?
    ensures Step(m, ttl, provider, base, now, storedAt) == Outcome(Ok(m[CacheKey(base)].data), m, false)
  {
  }

  /**
   * A miss answered successfully asks the provider once, stores its response
   * under the key stamped with the time of the store, and returns it.
   */
  lemma MissStoresSuccess(m: RatesCache, ttl: int, provider: Provider, base: string, now: int, storedAt: int)
    requires Lookup(m, ttl, CacheKey(base), now).None?
    requires provider(base).Fetched? && provider(base).response.success
    ensures var o := Step(m, ttl, provider, base, now, storedAt);
      && o.fetched
      && o.result == Ok(provider(base).response)
      && o.cache == m[CacheKey(base) := Entry(provider(base).response, storedAt)]
  {
  }

  /**
   * A miss answered with `success` false fails with the upstream's error text
   * and caches nothing; a provider failure is passed on with its own message.
   */
  lemma MissFailureCachesNothing(m: RatesCache, ttl: int, provider: Provider, base: string, now: int, storedAt: int)
    requires Lookup(m, ttl, CacheKey(base), now).None?
    requires provider(base).FetchFailed? || !provider(base).response.success
    ensures var o := Step(m, ttl, provider, base, now, storedAt);
      && o.fetched
      && o.cache == m
      && o.result == Err(if provider(base).FetchFailed? then FetchFailedMessage
                         else RejectedPrefix + provider(base).response.error)
  {
  }

  /**
   * The freshness window of a fetched answer runs from the time it was stored,
   * not from the time of the lookup that missed: a later call that looks up
   * before `storedAt + ttl` gets that same answer without asking the provider.
   */
  lemma FetchedAnswerServesFromStoreTime(m: RatesCache, ttl: int, provider: Provider, base: string, now: int, storedAt: int,
                                         later: int, laterStoredAt: int)
    requires var o := Step(m, ttl, provider, base, now, storedAt); o.fetched && o.result.Ok?
    requires later - storedAt < ttl
    ensures var o := Step(m, ttl, provider, base, now, storedAt);
      Step(o.cache, ttl, provider, base, later, laterStoredAt) == Outcome(o.result, o.cache, false)
  {
  }

  /** After a failed call, the next call for the same base at the same or a later time asks the provider again. */
  lemma FailureIsRetried(m: RatesCache, ttl: int, provider: Provider, base: string, now: int, storedAt: int,
                         later: int, laterStoredAt: int)
    requires Step(m, ttl, provider, base, now, storedAt).result.Err?
    requires now <= later
    ensures Step(Step(m, ttl, provider, base, now, storedAt).cache, ttl, provider, base, later, laterStoredAt).fetched
  {
    MissIsPermanent(m, ttl, CacheKey(base), now, later);
  }

  /** One call to `GetRates`: its base, the time of its lookup and the time a fetched answer would be stored. */
  datatype Request = Request(base: string, now: int, storedAt: int)

  /** What a sequence of calls leaves behind: the final cache and the bases the provider was asked for. */
  datatype Trace = Trace(cache: RatesCache, calls: seq<string>)

  /** The calls of `reqs` made one after the other, starting from the cache `m`. */
  function Replay(m: RatesCache, ttl: int, provider: Provider, reqs: seq<Request>): (t: Trace)
    ensures AllSuccessful(m) ==> AllSuccessful(t.cache)
    ensures |t.calls| <= |reqs|
    decreases |reqs|
  {
    if reqs == [] then Trace(m, [])
    else
      var o := Step(m, ttl, provider, reqs[0].base, reqs[0].now, reqs[0].storedAt);
      var rest := Replay(o.cache, ttl, provider, reqs[1..]);
      Trace(rest.cache, (if o.fetched then [reqs[0].base] else []) + rest.calls)
  }

  /**
   * While the entry stored for `base` at time `t` is fresh, no call of any
   * base touches it and no call for `base` reaches the provider.
   */
  lemma {:induction false} NoRefetchWhileFresh(m: RatesCache, ttl: int, provider: Provider, base: string, t: int, reqs: seq<Request>)
    requires CacheKey(base) in m && m[CacheKey(base)].timestamp == t
    requires forall i :: 0 <= i < |reqs| && reqs[i].base == base ==> reqs[i].now - t < ttl
    ensures var tr := Replay(m, ttl, provider, reqs);
      && base !in tr.calls
      && CacheKey(base) in tr.cache && tr.cache[CacheKey(base)] == m[CacheKey(base)]
    decreases |reqs|
  {
    if reqs != [] {
      var r := reqs[0];
      var o := Step(m, ttl, provider, r.base, r.now, r.storedAt);
      if r.base != base && o.cache != m {
        if CacheKey(r.base) == CacheKey(base) {
          CacheKeyInjective(r.base, base);
        }
      }
      assert CacheKey(base) in o.cache && o.cache[CacheKey(base)] == m[CacheKey(base)];
      assert o.fetched ==> r.base != base;
      NoRefetchWhileFresh(o.cache, ttl, provider, base, t, reqs[1..]);
    }
  }

  /** A successful fetch leaves an entry for the base stamped with the store time. */
  lemma FetchStampsEntry(m: RatesCache, ttl: int, provider: Provider, base: string, now: int, t: int)
    requires var o := Step(m, ttl, provider, base, now, t); o.fetched && o.result.Ok?
    ensures var o := Step(m, ttl, provider, base, now, t);
      CacheKey(base) in o.cache && o.cache[CacheKey(base)].timestamp == t
  {
  }

  /**
   * After a successful fetch for `base` whose answer was stored at time `t`,
   * later sequential calls for `base` that look up before `t + ttl` never reach
   * the provider, whatever calls for other bases come between them.
   */
  lemma AtMostOneFetchPerWindow(m: RatesCache, ttl: int, provider: Provider, base: string, now: int, t: int,
                                reqs: seq<Request>)
    requires var o := Step(m, ttl, provider, base, now, t); o.fetched && o.result.Ok?
    requires forall i :: 0 <= i < |reqs| && reqs[i].base == base ==> reqs[i].now < t + ttl
    ensures base !in Replay(Step(m, ttl, provider, base, now, t).cache, ttl, provider, reqs).calls
  {
    FetchStampsEntry(m, ttl, provider, base, now, t);
    NoRefetchWhileFresh(Step(m, ttl, provider, base, now, t).cache, ttl, provider, base, t, reqs);
  }

  /** The conversion example of the service's tests: 100 EUR at a USD rate of 1.2 is 120 USD. */
  lemma ConvertExample()
    ensures Convert(Ok(Response(true, map["USD" := 1.2], "")), "USD", 100.0) == Ok(120.0)
    ensures Convert(Ok(Response(true, map["USD" := 1.2], "")), "INVALID", 100.0) == Err(ConversionFailedMessage)
  {
  }

  class RatesService {
    const fixerApi: Provider
    const cacheService: CacheService<Response>
    /** The base currencies the provider has been asked for, in order. */
    ghost var providerCalls: seq<string>

    ghost predicate Valid()
      reads this, cacheService
    {
      AllSuccessful(cacheService.cache)
    }

    /** Keeps the provider and builds an empty cache with the given time-to-live. */
    constructor (fixerApi: Provider, cacheDuration: int := DefaultCacheDuration)
      ensures Valid()
      ensures this.fixerApi == fixerApi
      ensures fresh(cacheService)
      ensures cacheService.cache == map[] && cacheService.cacheDuration == cacheDuration
      ensures providerCalls == []
    {
      this.fixerApi := fixerApi;
      cacheService := new CacheService<Response>(cacheDuration);
      providerCalls := [];
    }

    /**
     * The rates for `base`, from the cache while fresh at the lookup time `now`,
     * otherwise from the provider, with a successful answer stored at `storedAt`.
     */
    method GetRates(base: string, now: int, storedAt: int) returns (r: Result<Response>)
      requires Valid()
      modifies this, cacheService
      ensures Valid()
      ensures var o := Step(old(cacheService.cache), cacheService.cacheDuration, fixerApi, base, now, storedAt);
        && r == o.result
        && cacheService.cache == o.cache
        && providerCalls == old(providerCalls) + (if o.fetched then [base] else [])
      ensures r.Ok? ==> r.value.success
    {
      var cacheKey := CacheKey(base);
      var cachedRates := cacheService.Get(cacheKey, now);
      if cachedRates.Some? {
        return Ok(cachedRates.value);
      }
      var fetched := fixerApi(base);
      providerCalls := providerCalls + [base];
      if fetched.FetchFailed? {
        return Err(FetchFailedMessage);
      }
      var rates := fetched.response;
      if !rates.success {
        return Err(RejectedPrefix + rates.error);
      }
      cacheService.Set(cacheKey, rates, storedAt);
      r := Ok(rates);
    }

    /** `amount` in the currency `to`, using the rates of the base currency `from`. */
    method ConvertCurrency(from: string, to: string, amount: real, now: int, storedAt: int) returns (r: Result<real>)
      requires Valid()
      modifies this, cacheService
      ensures Valid()
      ensures var o := Step(old(cacheService.cache), cacheService.cacheDuration, fixerApi, from, now, storedAt);
        && r == Convert(o.result, to, amount)
        && cacheService.cache == o.cache
        && providerCalls == old(providerCalls) + (if o.fetched then [from] else [])
    {
      var rates := GetRates(from, now, storedAt);
      r := Convert(rates, to, amount);
    }
  }
}
