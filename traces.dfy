/** Successive requests to one single-entry domain (price or stats),
    each handled to completion before the next starts. */
module Traces {
  import opened Wrappers
  import opened Json
  import opened CachePolicy

  /** One request: the clock when the handler starts, what upstream would
      answer, and the clock read after the upstream call. */
  datatype Request = Request(now: int, upstream: Upstream, storedAt: int)

  /** The entry left behind, the answers in order, and how many upstream calls were made. */
  datatype Run = Run(slot: Slot, responses: seq<Response>, fetches: nat)

  /** Handle `reqs` in order, starting from the entry `slot`. */
  function Replay(slot: Slot, reqs: seq<Request>, message: string): (r: Run)
    ensures |r.responses| == |reqs|
    ensures r.fetches <= |reqs|
    decreases |reqs|
  {
    if reqs == [] then
      Run(slot, [], 0)
    else
      var step := Serve(Some(slot), reqs[0].now, reqs[0].upstream, reqs[0].storedAt, message);
      var rest := Replay(Apply(slot, step), reqs[1..], message);
      Run(rest.slot, [step.response] + rest.responses, rest.fetches + if step.fetched then 1 else 0)
  }

  /** Handling one more request extends a replay by exactly one step: the
      order of `Replay`'s recursion is the order in which requests arrive. */
  lemma {:induction false} ReplayExtend(slot: Slot, reqs: seq<Request>, req: Request, message: string)
    ensures var r := Replay(slot, reqs, message);
      var step := Serve(Some(r.slot), req.now, req.upstream, req.storedAt, message);
      Replay(slot, reqs + [req], message)
        == Run(Apply(r.slot, step), r.responses + [step.response], r.fetches + if step.fetched then 1 else 0)
    decreases |reqs|
  {
    if reqs == [] {
      assert [] + [req] == [req];
    } else {
      var step0 := Serve(Some(slot), reqs[0].now, reqs[0].upstream, reqs[0].storedAt, message);
      assert (reqs + [req])[1..] == reqs[1..] + [req];
      ReplayExtend(Apply(slot, step0), reqs[1..], req, message);
    }
  }

  /** The clock never runs backwards: within a request and from one request to the next. */
  predicate Monotone(reqs: seq<Request>) {
    (forall i :: 0 <= i < |reqs| ==> reqs[i].now <= reqs[i].storedAt) &&
    (forall i, j :: 0 <= i < j < |reqs| ==> reqs[i].storedAt <= reqs[j].now)
  }

  /** Every upstream call would succeed with a truthy body. */
  predicate AllSucceed(reqs: seq<Request>) {
    forall i :: 0 <= i < |reqs| ==> reqs[i].upstream.Fetched? && Truthy(reqs[i].upstream.body)
  }

  /** Every upstream call would fail. */
  predicate AllFail(reqs: seq<Request>) {
    forall i :: 0 <= i < |reqs| ==> reqs[i].upstream == FetchFailed
  }

  /** Every request that arrives less than 5000 ms after a truthy entry was
      stored gets that entry's body, with no upstream call, and the entry
      stays as it is. */
  lemma {:induction false} WithinWindowServesStored(slot: Slot, reqs: seq<Request>, message: string)
    requires Truthy(slot.data)
    requires forall i :: 0 <= i < |reqs| ==> reqs[i].now - slot.timestamp < CACHE_DURATION
    ensures var r := Replay(slot, reqs, message);
      r.slot == slot && r.fetches == 0 &&
      forall i :: 0 <= i < |reqs| ==> r.responses[i] == Ok(slot.data)
    decreases |reqs|
  {
    if reqs != [] {
      WithinWindowServesStored(slot, reqs[1..], message);
    }
  }

  /** While upstream keeps failing nothing is ever stored: the entry, stale or
      not, stays in place, and each request gets either that entry (when it
      is a hit) or the fixed 500 body, never stale data. */
  lemma {:induction false} FailuresKeepSlot(slot: Slot, reqs: seq<Request>, message: string)
    requires AllFail(reqs)
    ensures var r := Replay(slot, reqs, message);
      r.slot == slot &&
      forall i :: 0 <= i < |reqs| ==>
        r.responses[i] == if CacheHit(Some(slot), reqs[i].now) then Ok(slot.data) else Failure(message)
    decreases |reqs|
  {
    if reqs != [] {
      FailuresKeepSlot(slot, reqs[1..], message);
    }
  }

  function Last(reqs: seq<Request>): Request
    requires reqs != []
  {
    reqs[|reqs| - 1]
  }

  /** Upstream calls are spaced: starting from a truthy entry stored no later
      than the first request, with a monotone clock and successful upstream
      calls, each upstream call comes at least 5000 ms after the previous
      store, so `fetches` calls need at least `5000 * fetches` ms. */
  lemma {:induction false} UpstreamCallsSpaced(slot: Slot, reqs: seq<Request>, message: string)
    requires Truthy(slot.data)
    requires reqs != [] && slot.timestamp <= reqs[0].now
    requires Monotone(reqs) && AllSucceed(reqs)
    ensures Replay(slot, reqs, message).fetches * CACHE_DURATION <= Last(reqs).now - slot.timestamp
    decreases |reqs|
  {
    var step := Serve(Some(slot), reqs[0].now, reqs[0].upstream, reqs[0].storedAt, message);
    var next := Apply(slot, step);
    assert Replay(slot, reqs, message).fetches
        == Replay(next, reqs[1..], message).fetches + if step.fetched then 1 else 0;
    if |reqs| == 1 {
      assert Replay(next, reqs[1..], message).fetches == 0;
    } else {
      var rest := reqs[1..];
      assert Monotone(rest) by {
        forall i, j | 0 <= i < j < |rest| ensures rest[i].storedAt <= rest[j].now {
          assert rest[i] == reqs[i + 1] && rest[j] == reqs[j + 1];
        }
      }
      assert AllSucceed(rest) by {
        forall i | 0 <= i < |rest| ensures rest[i].upstream.Fetched? && Truthy(rest[i].upstream.body) {
          assert rest[i] == reqs[i + 1];
        }
      }
      assert reqs[0].storedAt <= rest[0].now;
      assert Last(rest) == Last(reqs);
      assert reqs[0].storedAt <= Last(reqs).now;
      UpstreamCallsSpaced(next, rest, message);
    }
  }

  /** From the process start, with a monotone clock and successful upstream
      calls, a domain makes at most one upstream call per started 5000 ms:
      the first request fetches, and each later fetch is 5000 ms after the
      previous one. */
  lemma ColdStartSpacing(reqs: seq<Request>, message: string)
    requires reqs != [] && Monotone(reqs) && AllSucceed(reqs)
    ensures var r := Replay(EMPTY_SLOT, reqs, message);
      r.fetches >= 1 &&
      (r.fetches - 1) * CACHE_DURATION <= Last(reqs).now - reqs[0].now
  {
    var step := Serve(Some(EMPTY_SLOT), reqs[0].now, reqs[0].upstream, reqs[0].storedAt, message);
    var next := Apply(EMPTY_SLOT, step);
    assert step.fetched && next == Slot(reqs[0].upstream.body, reqs[0].storedAt);
    if |reqs| > 1 {
      var rest := reqs[1..];
      assert Monotone(rest) by {
        forall i, j | 0 <= i < j < |rest| ensures rest[i].storedAt <= rest[j].now {
          assert rest[i] == reqs[i + 1] && rest[j] == reqs[j + 1];
        }
      }
      assert AllSucceed(rest) by {
        forall i | 0 <= i < |rest| ensures rest[i].upstream.Fetched? && Truthy(rest[i].upstream.body) {
          assert rest[i] == reqs[i + 1];
        }
      }
      assert Last(rest) == Last(reqs);
      UpstreamCallsSpaced(next, rest, message);
    }
  }

  /** The price scenario: a request at 0 fetches and stores at 0, one at
      3000 ms is served from the cache although upstream now has something
      else, and one at 6000 ms finds the entry stale and refetches. */
  lemma PriceScenario(first: Value, second: Value)
    requires Truthy(first)
    ensures Replay(EMPTY_SLOT,
                   [Request(0, Fetched(first), 0), Request(3000, Fetched(second), 3000),
                    Request(6000, Fetched(second), 6000)],
                   PRICE_ERROR)
         == Run(Slot(second, 6000), [Ok(first), Ok(first), Ok(second)], 2)
  {
    var reqs := [Request(0, Fetched(first), 0), Request(3000, Fetched(second), 3000),
                 Request(6000, Fetched(second), 6000)];
    var stored := Slot(first, 0);
    assert Replay(Slot(second, 6000), reqs[3..], PRICE_ERROR) == Run(Slot(second, 6000), [], 0);
    assert Replay(stored, reqs[2..], PRICE_ERROR) == Run(Slot(second, 6000), [Ok(second)], 1);
    assert Replay(stored, reqs[1..], PRICE_ERROR) == Run(Slot(second, 6000), [Ok(first), Ok(second)], 1);
  }
}
