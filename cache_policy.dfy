/** The rule every `/api` handler follows: serve a fresh, truthy entry from
    the cache; otherwise ask upstream, store a success with the time it
    arrived, and answer a failure with a fixed 500 body without storing. */
module CachePolicy {
  import opened Wrappers
  import opened Json

  /** How long, in milliseconds, a stored entry is served. */
  const CACHE_DURATION: int := 5000

  /** An entry stored at `timestamp` may still be served at `now`. */
  predicate IsCacheValid(now: int, timestamp: int) {
    now - timestamp < CACHE_DURATION
  }

  /** One cache entry: the stored body and the time it was stored. */
  datatype Slot = Slot(data: Value, timestamp: int)

  /** What the price and stats domains hold before any request. */
  const EMPTY_SLOT: Slot := Slot(Null, 0)

  /** The outcome of the upstream call, had it been made. */
  datatype Upstream = Fetched(body: Value) | FetchFailed

  /** An HTTP answer: a status code and a JSON body. */
  datatype Response = Response(status: int, body: Value)

  function Ok(body: Value): Response {
    Response(200, body)
  }

  function Failure(message: string): Response {
    Response(500, Obj(map["error" := Str(message)]))
  }

  const PRICE_ERROR: string := "Failed to fetch price data"
  const STATS_ERROR: string := "Failed to fetch stats data"
  const KLINES_ERROR: string := "Failed to fetch klines data"

  /** The handler's guard: an entry exists, its body is truthy and it is fresh. */
  predicate CacheHit(entry: Option<Slot>, now: int) {
    entry.Some? && Truthy(entry.value.data) && IsCacheValid(now, entry.value.timestamp)
  }

  /** What one request does: the answer, the entry to write (None: write
      nothing) and whether upstream was called. */
  datatype Step = Step(response: Response, write: Option<Slot>, fetched: bool)

  /** One request against the entry `entry` at time `now`. `upstream` is
      consulted only on a miss; `storedAt` is the clock read after the
      upstream call returned. */
  function Serve(entry: Option<Slot>, now: int, upstream: Upstream, storedAt: int, message: string): Step {
    if CacheHit(entry, now) then
      Step(Ok(entry.value.data), None, false)
    else
      match upstream
      case Fetched(body) => Step(Ok(body), Some(Slot(body, storedAt)), true)
      case FetchFailed => Step(Failure(message), None, true)
  }

  /** The single-entry domain after `step`: the written entry replaces the old one wholesale. */
  function Apply(current: Slot, step: Step): Slot {
    if step.write.Some? then step.write.value else current
  }

  /** Freshness is strict: valid exactly while fewer than 5000 ms have
      elapsed, so at 5000 ms the entry is already stale. */
  lemma FreshnessIsStrict(now: int, timestamp: int)
    ensures IsCacheValid(now, timestamp) <==> now < timestamp + 5000
    ensures IsCacheValid(timestamp + 4999, timestamp)
    ensures !IsCacheValid(timestamp + 5000, timestamp)
  {
  }

  /** A request is answered from the cache, without an upstream call, exactly
      when the entry exists, is truthy and is fresh; it then returns the
      stored body and writes nothing. */
  lemma ServedFromCacheIff(entry: Option<Slot>, now: int, upstream: Upstream, storedAt: int, message: string)
    ensures var step := Serve(entry, now, upstream, storedAt, message);
      !step.fetched <==> entry.Some? && Truthy(entry.value.data) && now - entry.value.timestamp < 5000
    ensures var step := Serve(entry, now, upstream, storedAt, message);
      !step.fetched ==> step.response == Ok(entry.value.data) && step.write == None
  {
  }

  /** On a miss with a successful upstream call, the handler stores the
      fetched body with the post-fetch time and returns exactly that body. */
  lemma MissStoresFetched(entry: Option<Slot>, now: int, body: Value, storedAt: int, message: string)
    requires !CacheHit(entry, now)
    ensures Serve(entry, now, Fetched(body), storedAt, message)
         == Step(Ok(body), Some(Slot(body, storedAt)), true)
  {
  }

  /** A failed upstream call writes nothing, so a stale entry stays in place;
      the answer is either a hit or the domain's fixed 500 body. */
  lemma FailureWritesNothing(entry: Option<Slot>, now: int, storedAt: int, message: string)
    ensures var step := Serve(entry, now, FetchFailed, storedAt, message);
      step.write == None &&
      (step.fetched ==> step.response == Failure(message)) &&
      (step.fetched <==> !CacheHit(entry, now))
  {
  }

  /** After a successful store of a truthy body at `storedAt`, every request
      made less than 5000 ms later gets that body without an upstream call,
      whatever upstream would have answered; from 5000 ms on, it refetches. */
  lemma StoredBodyServedUntilStale(
    entry: Option<Slot>, now: int, body: Value, storedAt: int, message: string,
    later: int, next: Upstream, nextStoredAt: int)
    requires !CacheHit(entry, now) && Truthy(body)
    ensures var first := Serve(entry, now, Fetched(body), storedAt, message);
      var second := Serve(first.write, later, next, nextStoredAt, message);
      (later - storedAt < 5000 ==> second == Step(Ok(body), None, false)) &&
      (later - storedAt >= 5000 ==> second.fetched)
  {
  }

  /** In the initial state every domain misses: price and stats hold a null
      body, and a klines key that was never written is absent. */
  lemma InitialMiss(now: int, upstream: Upstream, storedAt: int, message: string)
    ensures Serve(Some(EMPTY_SLOT), now, upstream, storedAt, message).fetched
    ensures Serve(None, now, upstream, storedAt, message).fetched
  {
  }
}
