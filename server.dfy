/** The process-wide cache object and the three cached handlers. Each
    handler call runs to completion before the next (no interleaving). */
module Server {
  import opened Wrappers
  import opened Json
  import opened CachePolicy
  import opened KlinesKey
  import opened Traces

  class ResponseCache {
    /** `cache.price`, replaced wholesale on every store. */
    var price: Slot
    /** `cache.stats`, replaced wholesale on every store. */
    var stats: Slot
    /** `cache.klines.data`: key to stored body. */
    var klinesData: map<string, Value>
    /** `cache.klines.timestamp`: key to store time. */
    var klinesTimestamp: map<string, int>

    /** The two klines dictionaries are always written together. */
    ghost predicate Valid()
      reads this
    {
      klinesData.Keys == klinesTimestamp.Keys
    }

    /** The klines entry under `key`, if one was ever stored. */
    function KlinesEntry(key: string): Option<Slot>
      reads this
      requires Valid()
    {
      if key in klinesData then Some(Slot(klinesData[key], klinesTimestamp[key])) else None
    }

    /** The cache at process start: null bodies at time 0 and no klines. */
    constructor ()
      ensures Valid()
      ensures price == EMPTY_SLOT && stats == EMPTY_SLOT
      ensures klinesData == map[] && klinesTimestamp == map[]
    {
      price := EMPTY_SLOT;
      stats := EMPTY_SLOT;
      klinesData := map[];
      klinesTimestamp := map[];
    }

    /** GET /api/price at time `now`; `fetched` tells whether upstream was called. */
    method GetPrice(now: int, upstream: Upstream, storedAt: int) returns (response: Response, fetched: bool)
      requires Valid()
      modifies this
      ensures Valid()
      ensures var step := Serve(Some(old(price)), now, upstream, storedAt, PRICE_ERROR);
        response == step.response && fetched == step.fetched && price == Apply(old(price), step)
      ensures !fetched ==> response == Ok(old(price).data) && price == old(price)
      ensures upstream.FetchFailed? ==> price == old(price)
      ensures stats == old(stats) && klinesData == old(klinesData) && klinesTimestamp == old(klinesTimestamp)
    {
      if Truthy(price.data) && IsCacheValid(now, price.timestamp) {
        return Ok(price.data), false;
      }
      match upstream
      case FetchFailed =>
        response, fetched := Failure(PRICE_ERROR), true;
      case Fetched(body) =>
        price := Slot(body, storedAt);
        response, fetched := Ok(body), true;
    }

    /** GET /api/stats at time `now`; `fetched` tells whether upstream was called. */
    method GetStats(now: int, upstream: Upstream, storedAt: int) returns (response: Response, fetched: bool)
      requires Valid()
      modifies this
      ensures Valid()
      ensures var step := Serve(Some(old(stats)), now, upstream, storedAt, STATS_ERROR);
        response == step.response && fetched == step.fetched && stats == Apply(old(stats), step)
      ensures !fetched ==> response == Ok(old(stats).data) && stats == old(stats)
      ensures upstream.FetchFailed? ==> stats == old(stats)
      ensures price == old(price) && klinesData == old(klinesData) && klinesTimestamp == old(klinesTimestamp)
    {
      if Truthy(stats.data) && IsCacheValid(now, stats.timestamp) {
        return Ok(stats.data), false;
      }
      match upstream
      case FetchFailed =>
        response, fetched := Failure(STATS_ERROR), true;
      case Fetched(body) =>
        stats := Slot(body, storedAt);
        response, fetched := Ok(body), true;
    }

    /** GET /api/klines with the given query parameters at time `now`. A
        store writes index `key` of both dictionaries and nothing else. */
    method GetKlines(interval: Option<string>, limit: Option<string>, startTime: Option<string>,
                     now: int, upstream: Upstream, storedAt: int)
      returns (response: Response, fetched: bool)
      requires Valid()
      modifies this
      ensures Valid()
      ensures var key := CacheKey(interval, limit, startTime);
        var step := Serve(old(KlinesEntry(key)), now, upstream, storedAt, KLINES_ERROR);
        response == step.response && fetched == step.fetched &&
        (step.write.None? ==> klinesData == old(klinesData) && klinesTimestamp == old(klinesTimestamp)) &&
        (step.write.Some? ==>
           klinesData == old(klinesData)[key := step.write.value.data] &&
           klinesTimestamp == old(klinesTimestamp)[key := step.write.value.timestamp])
      ensures price == old(price) && stats == old(stats)
    {
      var key := CacheKey(interval, limit, startTime);
      if key in klinesData && Truthy(klinesData[key]) && IsCacheValid(now, klinesTimestamp[key]) {
        return Ok(klinesData[key]), false;
      }
      match upstream
      case FetchFailed =>
        response, fetched := Failure(KLINES_ERROR), true;
      case Fetched(body) =>
        klinesData := klinesData[key := body];
        klinesTimestamp := klinesTimestamp[key := storedAt];
        response, fetched := Ok(body), true;
    }
  }

  /** GET /api/price for each request of `reqs` in turn, on one cache: the
      answers, the upstream calls and the price entry left behind are those of
      `Replay`, so the sequence results about `Replay` hold of the cache
      object; stats and klines are untouched. */
  method ServePriceRequests(cache: ResponseCache, reqs: seq<Request>)
    returns (responses: seq<Response>, fetches: nat)
    requires cache.Valid()
    modifies cache
    ensures cache.Valid()
    ensures Replay(old(cache.price), reqs, PRICE_ERROR) == Run(cache.price, responses, fetches)
    ensures cache.stats == old(cache.stats)
    ensures cache.klinesData == old(cache.klinesData) && cache.klinesTimestamp == old(cache.klinesTimestamp)
  {
    ghost var start := cache.price;
    responses, fetches := [], 0;
    for i := 0 to |reqs|
      invariant cache.Valid()
      invariant Replay(start, reqs[..i], PRICE_ERROR) == Run(cache.price, responses, fetches)
      invariant cache.stats == old(cache.stats)
      invariant cache.klinesData == old(cache.klinesData) && cache.klinesTimestamp == old(cache.klinesTimestamp)
    {
      ReplayExtend(start, reqs[..i], reqs[i], PRICE_ERROR);
      assert reqs[..i + 1] == reqs[..i] + [reqs[i]];
      var response, fetched := cache.GetPrice(reqs[i].now, reqs[i].upstream, reqs[i].storedAt);
      responses := responses + [response];
      if fetched {
        fetches := fetches + 1;
      }
    }
    assert reqs[..|reqs|] == reqs;
  }

  /** A caller's view of the three handlers: a fresh cache misses everywhere,
      a price store does not make stats a hit, a klines request under a new key
      calls upstream although another key is fresh, and repeats within the
      window are hits even where upstream would now fail. `fetched[k]` tells
      whether request `k` called upstream. */
  method ScenarioAcrossDomains(a: Value, b: Value) returns (responses: seq<Response>, fetched: seq<bool>)
    requires Truthy(a) && Truthy(b)
    ensures responses == [Ok(a), Ok(b), Ok(a), Ok(b), Ok(a), Failure(STATS_ERROR)]
    ensures fetched == [true, true, true, false, false, true]
  {
    var cache := new ResponseCache();
    var r0, f0 := cache.GetPrice(0, Fetched(a), 10);
    var r1, f1 := cache.GetKlines(Some("1h"), Some("10"), Some("100"), 20, Fetched(b), 30);
    DistinctRequestsDistinctKeys();
    var r2, f2 := cache.GetKlines(Some("1h"), Some("10"), Some("200"), 40, Fetched(a), 50);
    var r3, f3 := cache.GetKlines(Some("1h"), Some("10"), Some("100"), 4000, FetchFailed, 4000);
    var r4, f4 := cache.GetPrice(5009, FetchFailed, 5009);
    var r5, f5 := cache.GetStats(5009, FetchFailed, 5009);
    responses := [r0, r1, r2, r3, r4, r5];
    fetched := [f0, f1, f2, f3, f4, f5];
  }
}
