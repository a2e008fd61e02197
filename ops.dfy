/** The ops instrumentation attached to an application (attach_ops in
    ops_instrumentation.py): the HTTP middleware that gates every request on
    the rate limiter, observes its latency and stamps trace and version
    headers, and the readiness probe. */
module Ops {
  import opened Values
  import L = Limiter
  import OpsLimiter
  import Metrics

  datatype Reply = Reply(status: int, body: Value, headers: Headers)

  /** What the rest of the application (`call_next`) did with the request. */
  datatype Downstream = Responded(reply: Reply) | Raised(kind: string, message: string)

  /** What the middleware hands back: a response, or the exception it let through. */
  datatype Outcome = Respond(reply: Reply) | Propagate(kind: string, message: string)

  /** The client key: the peer's host, or "unknown" when the request has no client. */
  function ClientKey(client: Option<string>): (ip: string)
    ensures client.Some? ==> ip == client.value
    ensures client.None? ==> ip == "unknown"
  {
    if client.Some? then client.value else "unknown"
  }

  /** The reply to a denied request. */
  function RateLimited(): (r: Reply)
    ensures r.status == 429 && r.headers == map[]
    ensures r.body.Object? && r.body.fields == map["detail" := Str("rate limit")]
  {
    Reply(429, Object(map["detail" := Str("rate limit")]), map[])
  }

  /** What an admitted request turns into: a downstream response gets the trace
      id and model version headers, replacing any entry of the same name in any
      case; a downstream exception goes on unchanged. */
  function Forwarded(next: Downstream, trace: string, modelVersion: string): (o: Outcome)
    // the framework stores every header name lower-cased
    requires next.Responded? ==> Canonical(next.reply.headers)
    ensures next.Raised? ==> o == Propagate(next.kind, next.message)
    ensures next.Responded? ==>
      && o.Respond?
      && o.reply.status == next.reply.status && o.reply.body == next.reply.body
      && Header(o.reply.headers, "X-Trace-Id") == Some(trace)
      && Header(o.reply.headers, "X-Model-Version") == Some(modelVersion)
      && o.reply.headers.Keys == next.reply.headers.Keys + {"x-trace-id", "x-model-version"}
      && (forall h :: h in next.reply.headers && h != "x-trace-id" && h != "x-model-version" ==>
            o.reply.headers[h] == next.reply.headers[h])
      && Canonical(o.reply.headers)
  {
    HeaderNamesLowered();
    match next
    case Responded(reply) =>
      Respond(reply.(headers := SetHeader(SetHeader(reply.headers, "X-Trace-Id", trace), "X-Model-Version", modelVersion)))
    case Raised(kind, message) => Propagate(kind, message)
  }

  /** A downstream `x-trace-id` is overwritten, not kept beside the new one. */
  lemma DownstreamTraceReplaced(status: int, body: Value, previous: string, trace: string, modelVersion: string)
    ensures Forwarded(Responded(Reply(status, body, map["x-trace-id" := previous])), trace, modelVersion)
      == Respond(Reply(status, body, map["x-trace-id" := trace, "x-model-version" := modelVersion]))
  {
    HeaderNamesLowered();
  }

  /** The `_mw` middleware for a request to `path`. `now` is the minute window
      of the clock, `trace` the trace id computed for the response, `next` what
      `call_next` does; `forwarded` tells whether `call_next` was invoked. */
  method Middleware(limiter: OpsLimiter.CountingLimiter, metrics: Metrics.Registry, modelVersion: string,
                    client: Option<string>, path: string, now: int, trace: string, next: Downstream)
    returns (outcome: Outcome, forwarded: bool)
    requires limiter.Valid()
    // the framework stores every header name lower-cased
    requires next.Responded? ==> Canonical(next.reply.headers)
    modifies limiter, metrics
    ensures limiter.Valid()
    ensures limiter.bucket == OpsLimiter.Admit(old(limiter.bucket), limiter.limit, ClientKey(client), now).bucket
    ensures forwarded == OpsLimiter.Admit(old(limiter.bucket), limiter.limit, ClientKey(client), now).allowed
    // denied: call_next is skipped, a 429 reply, one count under (path, "429")
    ensures !forwarded ==>
      && outcome == Respond(RateLimited())
      && Metrics.Bumped(old(metrics.requests), metrics.requests, (path, "429"))
      && metrics.latency == old(metrics.latency)
    // admitted: exactly one latency observation for the path, even when
    // call_next raises, and no request count
    ensures forwarded ==>
      && outcome == Forwarded(next, trace, modelVersion)
      && metrics.requests == old(metrics.requests)
      && Metrics.Bumped(old(metrics.latency), metrics.latency, path)
  {
    var ip := ClientKey(client);
    var allowed := limiter.Allow(ip, now);
    if !allowed {
      metrics.CountRequest(path, "429");
      return Respond(RateLimited()), false;
    }
    forwarded := true;
    // the latency is observed in a `finally`: on both outcomes of call_next
    metrics.ObserveLatency(path);
    match next {
      case Raised(kind, message) =>
        outcome := Propagate(kind, message);
      case Responded(reply) =>
        var headers := SetHeader(reply.headers, "X-Trace-Id", trace);
        headers := SetHeader(headers, "X-Model-Version", modelVersion);
        outcome := Respond(reply.(headers := headers));
    }
  }

  /** The injected readiness check: absent, returned a value, or raised. */
  datatype ReadyCheck = NoCheck | Returns(value: Value) | Throws

  function ReadyBody(ready: bool, started: string): Value {
    Object(map["ready" := Bool(ready), "started" := Str(started)])
  }

  /** GET /ready; `started` is the time the instrumentation was attached. */
  function Ready(check: ReadyCheck, started: string): (r: Reply)
    ensures r.status == 200 || r.status == 503
    ensures r.headers == map[]
    // no check: ready; a raising check: not ready, 503
    ensures check.NoCheck? ==> r == Reply(200, ReadyBody(true, started), map[])
    ensures check.Throws? ==> r == Reply(503, ReadyBody(false, started), map[])
    // otherwise ready is the truth value of what the check returned, and the
    // status is 200 exactly when ready
    ensures check.Returns? ==>
      && r.body == ReadyBody(Truthy(check.value), started)
      && (r.status == 200 <==> Truthy(check.value))
  {
    var ok :=
      if check.NoCheck? then true
      else if check.Throws? then false
      else Truthy(check.value);
    Reply(if ok then 200 else 503, ReadyBody(ok, started), map[])
  }
}
