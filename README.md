# Response cache of the SHIB ticker proxy

The backend is a small Express proxy in front of the Binance REST API for the
SHIBUSDT pair. Its only logic is a process-local response cache with three
independent domains:

- **price** and **stats**: one entry each, `{data, timestamp}`, initially
  `{data: null, timestamp: 0}`, replaced wholesale on every store;
- **klines**: two parallel dictionaries, key to body and key to store time,
  keyed by `${interval}-${limit}-${startTime}` over the query parameters.

Every handler serves the stored body when it is truthy and fewer than 5000 ms
old; otherwise it calls upstream, stores a success together with the clock read
after the call, and answers a failure with a 500 body `{error: <fixed message>}`
without writing anything.

Files:

- `json.dfy` (`Json`): the stored bodies as JSON values and JavaScript truthiness.
- `cache_policy.dfy` (`CachePolicy`): `CACHE_DURATION`, `IsCacheValid`, the
  hit guard, the error bodies, and `Serve`, one handler call on one entry, with
  the lemmas that say what a call does.
- `klines_key.dfy` (`KlinesKey`): the klines key template, when it is
  injective, and where it collides.
- `traces.dfy` (`Traces`): successive requests to one domain (`Replay`), and
  what holds over a whole sequence: the window, failures, spacing of upstream calls.
- `server.dfy` (`Server`): the cache object `ResponseCache`, with fields for
  `cache.price`, `cache.stats` and the two klines dictionaries, and one method per
  handler, each proved against `Serve`, and a loop of price requests proved
  against `Replay`.
- `wrappers.dfy` (`Wrappers`): `Option`.

Time is a parameter: `now` is the clock read by `isCacheValid` before the
upstream call, `storedAt` the clock read after it. The upstream call is a
parameter too: `Fetched(body)` or `FetchFailed`; it is consulted only on a miss,
and each method reports in `fetched` whether it was.

An error body is `{error: message}` and nothing else. The klines key
identifies its parameter triple only when the first two parameters contain no
`-` and no present parameter is the text `undefined`
(`KlinesKey.CacheKeyInjective`); otherwise distinct triples can share a key
(`KlinesKey.CacheKeyCollisions`).

## Model

| member | source | states |
|---|---|---|
| CachePolicy.FreshnessIsStrict | backend/server.js:27-32 | An entry is valid exactly while `now - timestamp < 5000`; at 4999 ms it is valid, at exactly 5000 ms it is stale. |
| CachePolicy.ServedFromCacheIff | backend/server.js:37-39 | A request is answered without an upstream call if and only if the entry exists, its body is truthy and it is fresh; such a hit returns the stored body and writes nothing. A falsy stored body is never served. |
| CachePolicy.MissStoresFetched | backend/server.js:41-46 | On a miss with a successful upstream call, the entry becomes the fetched body with the post-fetch time and the answer is 200 with exactly that body. |
| CachePolicy.FailureWritesNothing | backend/server.js:47-50 | A failed upstream call writes nothing (a stale entry stays); a miss then answers 500 with `{error: message}`, and the call is made exactly on a miss. |
| CachePolicy.StoredBodyServedUntilStale | backend/server.js:37-46 | After a truthy body is stored at `storedAt`, a request before `storedAt + 5000` gets it with no upstream call, whatever upstream would say; a request from `storedAt + 5000` on refetches. |
| CachePolicy.InitialMiss | backend/server.js:21-25 | The initial price and stats entries (`null` at 0) and an absent klines key are misses at any time. |
| KlinesKey.RenderInjective | backend/server.js:75-76 | Rendering a parameter (absent as `undefined`) is injective over parameters that are not a present `undefined`, and an unambiguous one (also without `-`) renders without `-`. |
| KlinesKey.CacheKeyInjective | backend/server.js:75-76 | When interval and limit contain no `-` and no present parameter is `undefined` (startTime may contain `-`), two keys are equal if and only if the parameter triples are equal. |
| KlinesKey.CacheKeyCollisions | backend/server.js:76 | The template is not injective in general: a `-` inside a value, or a present value `undefined`, lets distinct triples share a key. |
| KlinesKey.DistinctRequestsDistinctKeys | backend/server.js:75-76 | `1-2-3` differs from `1-2-4`; absent/5/absent differs from 5/absent/absent; startTime 100 and 200 give two keys, and so do startTime `-1` and `1`. |
| KlinesKey.CacheKeyNeverInherited | backend/server.js:76-78 | Every key contains `-`, so no key names a property inherited from `Object.prototype`; the dictionary lookups see only what the handler wrote. |
| Traces.Replay | backend/server.js:35-51 | Replaying requests on one domain gives one answer per request and at most one upstream call per request. |
| Traces.ReplayExtend | backend/server.js:35-51 | Handling one more request extends a replay by exactly one handler step on the entry the earlier requests left. |
| Traces.WithinWindowServesStored | backend/server.js:37-39 | Over any sequence of requests less than 5000 ms after a truthy store, every answer is the stored body, no upstream call is made and the entry is unchanged. |
| Traces.FailuresKeepSlot | backend/server.js:47-50 | While upstream fails, the entry never changes, and each request gets the stored body exactly when it is a hit and the 500 body otherwise; stale data is never returned. |
| Traces.UpstreamCallsSpaced | backend/server.js:27-46 | With a monotone clock and successful truthy fetches, starting from a truthy entry, `fetches * 5000 <= last request time - store time`: `n` upstream calls need at least `5000 * n` ms. That each single fetch on a truthy entry comes at least 5000 ms after its store is `CachePolicy.ServedFromCacheIff`. |
| Traces.ColdStartSpacing | backend/server.js:21-46 | From the initial state, under the same conditions, the first request fetches and `(fetches - 1) * 5000 <= last - first request time`. |
| Traces.PriceScenario | backend/server.js:35-51 | Price requests at 0, 3000 and 6000 ms: fetch and store at 0, serve the stored body at 3000, refetch and store at 6000; two upstream calls. |
| Server.ResponseCache.constructor | backend/server.js:21-25 | The initial cache: price and stats `{null, 0}`, both klines dictionaries empty. |
| Server.ResponseCache.GetPrice | backend/server.js:35-51 | The answer, `fetched` and the new price entry are those of `Serve` on the old entry with the price message; a hit or a failure leaves the entry; stats and klines are untouched. |
| Server.ResponseCache.GetStats | backend/server.js:54-70 | As GetPrice for the stats entry and the stats message; price and klines are untouched. |
| Server.ResponseCache.GetKlines | backend/server.js:73-99 | The answer and `fetched` are those of `Serve` on the entry under the templated key; a store writes that key in both dictionaries and nothing else, otherwise both are unchanged; the two key sets stay equal; price and stats are untouched. |
| Server.ServePriceRequests | backend/server.js:35-51 | Calling the price handler on one cache for each request in turn yields the answers, upstream-call count and final price entry of `Replay`; stats and klines are untouched. |
| Server.ScenarioAcrossDomains | backend/server.js:35-99 | From a fresh cache, with the upstream-call flag of each request: a price store does not make stats a hit (stats calls upstream and answers 500); klines with startTime 200 calls upstream although startTime 100 was stored 20 ms earlier, so they are two entries; repeating startTime 100 within 5000 ms and a price request 4999 ms after its store are hits with no upstream call, answering the stored bodies although upstream would fail. |

## Left out

- Express routing, the 404 fallback, `express.json`, the CORS allow-list, `/health`, `dotenv`, `PORT` and `app.listen` (backend/server.js:1-18, 101-109): HTTP and process plumbing with no cache logic.
- The axios calls and the Binance URLs and parameters (backend/server.js:41, 60, 82-89): network I/O, replaced by the `Upstream` parameter. What makes axios throw (network error, non-2xx status) is not modelled, only that it failed.
- `Date.now()`: the clock is the `now` and `storedAt` parameters. Nothing relates them in the handlers; only the trace theorems assume a monotone clock.
- `console.error` logging (backend/server.js:48, 67, 96): output only.
- Concurrent, interleaved handler calls: each call is atomic here, so two overlapping misses on one key that both fetch, with the later write winning, are not modelled.
- A failure of `res.json` itself after a store, which would send the 500 body after the entry was written: response I/O.
- Query parameters that Express parses into arrays or objects: each parameter is a string or absent.
- JavaScript numbers that are not reals (NaN, the infinities) and `undefined` as a response body: JSON bodies cannot carry them.
