/** The metrics recorder: a request counter labelled by (route, status) and a
    latency histogram labelled by route. Only the number of latency observations
    per route is kept; the observed seconds and the buckets are not modelled. */
module Metrics {

  /** The counter at `key` raised by exactly one, every other counter as it was. */
  function Bump<K>(counters: map<K, nat>, key: K): (r: map<K, nat>)
    ensures key in r && r[key] == (if key in counters then counters[key] else 0) + 1
    ensures r.Keys == counters.Keys + {key}
    ensures forall k :: k in counters && k != key ==> r[k] == counters[k]
  {
    counters[key := (if key in counters then counters[key] else 0) + 1]
  }

  /** `after` is `before` with the counter at `key` raised by exactly one. */
  ghost predicate Bumped<K>(before: map<K, nat>, after: map<K, nat>, key: K) {
    after == Bump(before, key)
  }

  /** Counters only increase: no series disappears and no count goes down. */
  ghost predicate Grew<K(!new)>(before: map<K, nat>, after: map<K, nat>) {
    forall k :: k in before ==> k in after && before[k] <= after[k]
  }

  class Registry {
    /** http_requests_total{route, status} */
    var requests: map<(string, string), nat>
    /** number of observations of http_request_latency_seconds{route} */
    var latency: map<string, nat>

    constructor ()
      ensures requests == map[] && latency == map[]
    {
      requests := map[];
      latency := map[];
    }

    function Requests(route: string, status: string): nat
      reads this
    {
      if (route, status) in requests then requests[(route, status)] else 0
    }

    function Observations(route: string): nat
      reads this
    {
      if route in latency then latency[route] else 0
    }

    /** REQS.labels(route, status).inc() */
    method CountRequest(route: string, status: string)
      modifies this
      ensures Bumped(old(requests), requests, (route, status))
      ensures Grew(old(requests), requests)
      ensures latency == old(latency)
    {
      requests := requests[(route, status) := Requests(route, status) + 1];
    }

    /** LAT.labels(route).observe(seconds): one more observation for the route. */
    method ObserveLatency(route: string)
      modifies this
      ensures Bumped(old(latency), latency, route)
      ensures Grew(old(latency), latency)
      ensures requests == old(requests)
    {
      latency := latency[route := Observations(route) + 1];
    }
  }
}
