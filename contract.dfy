/** The `/predict` handler of the serving contract (create_app in
    v2/quant_contract/contract.py): the admission gate, one call of the injected
    prediction function, the success and error envelopes, the request counter,
    the latency observation and the response headers. */
module Contract {
  import opened Values
  import Limiter
  import Metrics

  const PredictRoute := "/predict"

  /** The validated request body: `model` is optional, `params` defaults to {}. */
  datatype PredictRequest = PredictRequest(model: Option<string>, params: map<string, Value>, data: Value)

  /** What the prediction function did: returned a result, returned a result
      whose rendering as JSON raised an exception (a non-finite number, say),
      or itself raised an exception of the named type with the given message. */
  datatype PredictOutcome =
    | Returned(result: Value)
    | Unrenderable(kind: string, message: string)
    | Raised(kind: string, message: string)

  datatype ErrorPayload = ErrorPayload(kind: string, message: string, details: map<string, Value>)

  /** PredictResponse (`ok` true) or ErrorResponse (`ok` false). `timing_ms` is not modelled. */
  datatype Envelope =
    | Success(traceId: string, model: string, modelVersion: string, result: Value, warnings: seq<string>)
    | Failure(traceId: string, error: ErrorPayload)
  {
    predicate Ok() { Success? }
  }

  datatype Reply = Reply(status: int, body: Envelope, headers: Headers)

  /** The headers set on every reply that got past the admission gate. */
  function ModelHeaders(trace: string, service: string, version: string): Headers {
    SetHeader(SetHeader(SetHeader(map[], "X-Trace-Id", trace), "X-Model", service), "X-Model-Version", version)
  }

  /** The client key: the peer's host, or "x" when the request has no client. */
  function ClientKey(client: Option<string>): (ip: string)
    ensures client.Some? ==> ip == client.value
    ensures client.None? ==> ip == "x"
  {
    if client.Some? then client.value else "x"
  }

  /** The one argument the prediction function receives: {"params": ..., "data": ...}. */
  function PredictArgument(body: PredictRequest): (arg: Value)
    ensures arg.Object? && arg.fields.Keys == {"params", "data"}
    ensures arg.fields["params"] == Object(body.params) && arg.fields["data"] == body.data
  {
    Object(map["params" := Object(body.params), "data" := body.data])
  }

  /** `str.title()` on the rest of a string, `afterCased` telling whether the
      character before it was a letter. */
  function TitleFrom(s: string, afterCased: bool): (r: string)
    ensures |r| == |s|
    // each character keeps its casedness; it is lower-cased right after a
    // letter and upper-cased anywhere else
    ensures forall i {:trigger r[i]} :: 0 <= i < |s| ==> IsCased(r[i]) == IsCased(s[i])
    ensures forall i {:trigger r[i]} :: 0 <= i < |s| ==>
      r[i] == if (if i == 0 then afterCased else IsCased(s[i - 1])) then Lower(s[i]) else Upper(s[i])
  {
    if s == [] then [] else [if afterCased then Lower(s[0]) else Upper(s[0])] + TitleFrom(s[1..], IsCased(s[0]))
  }

  function Title(s: string): string { TitleFrom(s, false) }

  /** Title-casing twice is title-casing once. It follows from the
      character-wise description of TitleFrom: casedness is kept and each
      case mapping is idempotent. */
  lemma TitleIdempotent(s: string, afterCased: bool)
    ensures TitleFrom(TitleFrom(s, afterCased), afterCased) == TitleFrom(s, afterCased)
  {
  }

  function ReplaceDashes(s: string): (r: string)
    ensures |r| == |s|
    ensures forall i :: 0 <= i < |s| ==> r[i] == if s[i] == '-' then ' ' else s[i]
  {
    if s == [] then [] else [if s[0] == '-' then ' ' else s[0]] + ReplaceDashes(s[1..])
  }

  /** The `model` field of a success envelope: `service_name.replace('-', ' ').title()`. */
  function DisplayName(service: string): (r: string)
    ensures |r| == |service| && '-' !in r
    ensures forall i :: 0 <= i < |service| ==>
      if service[i] == '-' then r[i] == ' ' else r[i] == Upper(service[i]) || r[i] == Lower(service[i])
    ensures Title(r) == r
  {
    var spaced := ReplaceDashes(service);
    TitleIdempotent(spaced, false);
    DashesBecomeSpaces(service);
    Title(spaced)
  }

  lemma DashesBecomeSpaces(service: string)
    ensures var r := Title(ReplaceDashes(service));
      && '-' !in r
      && forall i :: 0 <= i < |service| ==>
           if service[i] == '-' then r[i] == ' ' else r[i] == Upper(service[i]) || r[i] == Lower(service[i])
  {
    var spaced := ReplaceDashes(service);
    var r := Title(spaced);
    forall i | 0 <= i < |service|
      ensures r[i] != '-'
      ensures if service[i] == '-' then r[i] == ' ' else r[i] == Upper(service[i]) || r[i] == Lower(service[i])
    {
      assert r[i] == Upper(spaced[i]) || r[i] == Lower(spaced[i]);
    }
  }

  /** The response to a call that got past the admission gate. */
  function Completed(trace: string, service: string, version: string, outcome: PredictOutcome): (r: Reply)
    // status 200 exactly for a result that renders, 500 for any exception
    ensures r.status == (if outcome.Returned? then 200 else 500)
    ensures r.body.Ok() <==> r.status == 200
    // the result is passed through, with no warnings
    ensures outcome.Returned? ==>
      r.body == Success(trace, DisplayName(service), version, outcome.result, [])
    // the exception's type name and message are passed through, with no details
    ensures !outcome.Returned? ==>
      r.body == Failure(trace, ErrorPayload(outcome.kind, outcome.message, map[]))
    // the trace id in the header is the one in the body; the model name and
    // version headers carry the raw service name and the version
    ensures Header(r.headers, "X-Trace-Id") == Some(r.body.traceId) && r.body.traceId == trace
    ensures Header(r.headers, "X-Model") == Some(service)
    ensures Header(r.headers, "X-Model-Version") == Some(version)
    ensures r.headers.Keys == {"x-trace-id", "x-model", "x-model-version"} && Canonical(r.headers)
  {
    HeaderNamesLowered();
    var reply := match outcome
      case Returned(result) => Reply(200, Success(trace, DisplayName(service), version, result, []), map[])
      case Unrenderable(kind, message) => Reply(500, Failure(trace, ErrorPayload(kind, message, map[])), map[])
      case Raised(kind, message) => Reply(500, Failure(trace, ErrorPayload(kind, message, map[])), map[]);
    reply.(headers := ModelHeaders(trace, service, version))
  }

  /** The admitted part of POST /predict, from the prediction's outcome on:
      the reply, its count and its latency observation. */
  method Conclude(metrics: Metrics.Registry, service: string, version: string, trace: string,
                  outcome: PredictOutcome)
    returns (reply: Reply)
    modifies metrics
    ensures reply == Completed(trace, service, version, outcome)
    ensures Metrics.Grew(old(metrics.requests), metrics.requests)
    ensures Metrics.Grew(old(metrics.latency), metrics.latency)
    // a result that renders, or an exception from the prediction: one count
    // under the reply's status and one latency observation
    ensures !outcome.Unrenderable? ==>
      && Metrics.Bumped(old(metrics.requests), metrics.requests,
                        (PredictRoute, if outcome.Returned? then "200" else "500"))
      && Metrics.Bumped(old(metrics.latency), metrics.latency, PredictRoute)
    // a result that fails to render: the success path has already counted 200
    // and observed the latency when rendering raises, and the error path then
    // counts 500 and observes the latency a second time
    ensures outcome.Unrenderable? ==>
      && metrics.requests == Metrics.Bump(Metrics.Bump(old(metrics.requests), (PredictRoute, "200")), (PredictRoute, "500"))
      && metrics.latency == Metrics.Bump(Metrics.Bump(old(metrics.latency), PredictRoute), PredictRoute)
  {
    HeaderNamesLowered();
    match outcome {
      case Returned(result) =>
        reply := Reply(200, Success(trace, DisplayName(service), version, result, []), map[]);
        metrics.CountRequest(PredictRoute, "200");
        metrics.ObserveLatency(PredictRoute);
      case Unrenderable(kind, message) =>
        // the success branch runs up to the rendering of its reply, which raises
        metrics.CountRequest(PredictRoute, "200");
        metrics.ObserveLatency(PredictRoute);
        reply := Reply(500, Failure(trace, ErrorPayload(kind, message, map[])), map[]);
        metrics.CountRequest(PredictRoute, "500");
        metrics.ObserveLatency(PredictRoute);
      case Raised(kind, message) =>
        reply := Reply(500, Failure(trace, ErrorPayload(kind, message, map[])), map[]);
        metrics.CountRequest(PredictRoute, "500");
        metrics.ObserveLatency(PredictRoute);
    }
    // h.headers["X-Trace-Id"], ["X-Model"] and ["X-Model-Version"], in that order
    reply := reply.(headers := ModelHeaders(trace, service, version));
  }

  /** POST /predict. `client` is the peer's host if known, `now` the minute
      window of the clock, `trace` the trace id the request gets. `calls` lists
      the arguments the prediction function was called with. */
  method HandlePredict(limiter: Limiter.RateLimiter, metrics: Metrics.Registry,
                       service: string, version: string, predictFn: Value -> PredictOutcome,
                       client: Option<string>, now: int, trace: string, body: PredictRequest)
    returns (reply: Reply, calls: seq<Value>)
    requires limiter.Valid()
    modifies limiter, metrics
    ensures limiter.Valid()
    ensures limiter.bucket == Limiter.Admit(old(limiter.bucket), limiter.limit, ClientKey(client), now).bucket
    ensures reply.body.traceId == trace
    ensures Metrics.Grew(old(metrics.requests), metrics.requests)
    ensures Metrics.Grew(old(metrics.latency), metrics.latency)
    // denied: no prediction, a 429 RateLimit envelope without headers, one
    // count under 429 and no latency observation
    ensures !Limiter.Admit(old(limiter.bucket), limiter.limit, ClientKey(client), now).allowed ==>
      && calls == []
      && reply == Reply(429, Failure(trace, ErrorPayload("RateLimit", "Too many requests", map[])), map[])
      && Metrics.Bumped(old(metrics.requests), metrics.requests, (PredictRoute, "429"))
      && metrics.latency == old(metrics.latency)
    // admitted: exactly one prediction on {params, data}, and its outcome
    // concluded as Conclude states (reply, counts and latency)
    ensures Limiter.Admit(old(limiter.bucket), limiter.limit, ClientKey(client), now).allowed ==>
      && calls == [PredictArgument(body)]
      && reply == Completed(trace, service, version, predictFn(PredictArgument(body)))
    ensures Limiter.Admit(old(limiter.bucket), limiter.limit, ClientKey(client), now).allowed &&
            !predictFn(PredictArgument(body)).Unrenderable? ==>
      && Metrics.Bumped(old(metrics.requests), metrics.requests,
                        (PredictRoute, if reply.status == 200 then "200" else "500"))
      && Metrics.Bumped(old(metrics.latency), metrics.latency, PredictRoute)
    ensures Limiter.Admit(old(limiter.bucket), limiter.limit, ClientKey(client), now).allowed &&
            predictFn(PredictArgument(body)).Unrenderable? ==>
      && metrics.requests == Metrics.Bump(Metrics.Bump(old(metrics.requests), (PredictRoute, "200")), (PredictRoute, "500"))
      && metrics.latency == Metrics.Bump(Metrics.Bump(old(metrics.latency), PredictRoute), PredictRoute)
  {
    calls := [];
    var ip := ClientKey(client);
    var allowed := limiter.Allow(ip, now);
    if !allowed {
      reply := Reply(429, Failure(trace, ErrorPayload("RateLimit", "Too many requests", map[])), map[]);
      metrics.CountRequest(PredictRoute, "429");
      return;
    }
    var argument := PredictArgument(body);
    var outcome := predictFn(argument);
    calls := [argument];
    reply := Conclude(metrics, service, version, trace, outcome);
  }
}
