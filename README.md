# Serving-contract layer: a Dafny model

This project models the serving-contract layer that wraps a model-inference
HTTP service around an injected prediction function. The layer comes in two
versions. `v2/quant_contract/contract.py` builds the whole application, with
a `/predict` handler. `ops_instrumentation.py` is an older middleware that
attaches to an existing application. The model covers:

- **The fixed-window rate limiter of `contract.py`** (`Limiter`). It checks
  first and then counts, so a denied call consumes no quota. `Admit` is the
  specification of one `allow` call. `Replay` folds it over a sequence of
  calls. `RateLimiter` is the stateful object, with the bucket map as a field
  that `Allow` reassigns.
- **The rate limiter of `ops_instrumentation.py`** (`OpsLimiter`). It counts
  every call, then compares.
- **How the two limiters relate** (`LimiterVariants`). With a quota of at
  least one, they give identical answers to every call sequence, and the
  checked count is the raw count capped at the limit. With a quota of zero,
  they disagree on a key whose window has rolled over.
- **The metrics recorder** (`Metrics.Registry`). It holds the request counter
  keyed by (route, status) and the number of latency observations per route.
- **The `/predict` handler** (`Contract.HandlePredict`). It runs the admission
  gate, calls the prediction function at most once, builds the success or
  error envelope, counts the request under its status, observes the latency
  and sets the headers. A result that fails to render is the exception:
  that one request counts under both 200 and 500 and observes the latency
  twice.
- **The ops middleware gate and readiness probe** (`Ops.Middleware`,
  `Ops.Ready`).

Some inputs that the Python code reads itself are parameters here:

- The clock is the argument `now`, standing for `int(time.time() // 60)`.
- The trace id is an opaque input string.
- The prediction function is a total function from a JSON-like `Value` to a
  `PredictOutcome`. The function can return a result, return one whose
  rendering as JSON raises (`Unrenderable`), or raise an exception with a type
  name and a message.
- `HandlePredict` also returns the list of arguments it passed to the
  function, so its contract can say whether it was called and with what. The
  handler keeps this list itself, next to the call. The contract therefore
  rests on the handler's own record: it does not rule out a body that
  evaluated the function without recording it. `Ops.Middleware`'s
  `forwarded` flag is kept the same way.
- What the downstream application (`call_next`) does is an input of
  `Ops.Middleware`.
- What the readiness check does is an input of `Ops.Ready`.

Two edge cases of the code are stated on their own:

- A first call for a key is not admitted unconditionally. `allow` reads a
  missing key as `(now, 0)`, so with a limit below one that call is denied
  (`v2/quant_contract/contract.py:63,66`). `Limiter.Admit` states this case.
- The 429 reply of `/predict` carries the trace id in its body but sets no
  `X-Trace-Id` header (`v2/quant_contract/contract.py:104-111`). Only replies
  that get past the gate carry the header.

Response headers are keyed by their lower-cased names, the way the framework
stores them. Setting a header replaces the entry of that name in any case. A
downstream reply handed to the middleware has only lower-cased names, which
`Ops.Forwarded` and `Ops.Middleware` require.

## Model

| member | source | states |
|---|---|---|
| `Limiter.Admit` | v2/quant_contract/contract.py:61-68 | When the key's stored window differs from `now`, the call is admitted whatever the limit, and the key is stored as `(now, 1)`. Within the window (a missing key reads as `(now, 0)`), the call is admitted iff count + 1 <= limit, so a new key is admitted iff limit >= 1. A denied call leaves the whole map unchanged. An admitted same-window call stores `(now, count + 1)`. Other keys are untouched. Counts stay within max(limit, 1). |
| `Limiter.Replay` | v2/quant_contract/contract.py:61-68 | Successive `allow` calls give one answer per call. |
| `Limiter.FirstLimitCallsAdmitted` | v2/quant_contract/contract.py:61-68 | From an empty map with limit L >= 1, n calls of one key in one minute get answer i < L for call i: the first L are admitted and every later one is denied. The stored count is min(n, L). |
| `Limiter.DeniedCallsChangeNothing` | v2/quant_contract/contract.py:66-67 | Once a key is at its quota in the current window, any number of further calls in that window are all denied and leave the map exactly as it was. |
| `Limiter.ReplayStaysBounded` | v2/quant_contract/contract.py:63-68 | From an empty map, after any sequence of calls, every stored count is at most max(limit, 1). |
| `Limiter.RateLimiter.constructor` | v2/quant_contract/contract.py:58-60 | The limiter starts with the given limit and an empty bucket map. |
| `Limiter.RateLimiter.Allow` | v2/quant_contract/contract.py:61-68 | The answer and the new bucket map are those of `Admit` on the old map. The count bound is preserved. |
| `OpsLimiter.Admit` | ops_instrumentation.py:20-23 | Every call, denied or not, stores `(now, c)`. Here c is the previous same-window count plus one, or one if the key is missing or its window is stale. The call is admitted iff c <= limit. Other keys are untouched, and the key set gains `ip`. |
| `OpsLimiter.Replay` | ops_instrumentation.py:20-23 | Successive `allow` calls give one answer per call. |
| `OpsLimiter.StoredCountIsCallsInWindow` | ops_instrumentation.py:21-23 | From an empty map, a key is stored iff it was called. It is then stored with the window of its last call and the number of its calls since its window last changed. That count is not capped by the limit. |
| `OpsLimiter.CountingLimiter.constructor` | ops_instrumentation.py:19 | The limiter starts with the given limit and an empty bucket map. |
| `OpsLimiter.CountingLimiter.Allow` | ops_instrumentation.py:20-23 | The answer and the new bucket map are those of `OpsLimiter.Admit` on the old map. Stored counts stay positive. |
| `LimiterVariants.StepAgrees` | ops_instrumentation.py:21-23 | For limit >= 1, take maps holding the same keys and windows, where the checked count is the raw count capped at the limit. One call gets the same answer from both limiters of `v2/quant_contract/contract.py:61-68` and this one, and the maps still correspond afterwards. |
| `LimiterVariants.VariantsAgree` | ops_instrumentation.py:20-23 | For limit >= 1, any sequence of calls from corresponding maps gets identical answers from the two limiters, and the final maps correspond. The checked variant stores min(calls, limit) and this one stores the raw call count. |
| `LimiterVariants.FreshVariantsAgree` | ops_instrumentation.py:20-23 | Two limiters started empty with limit >= 1 give identical answers to every call sequence. |
| `LimiterVariants.ZeroLimitDisagrees` | ops_instrumentation.py:22-23 | With limit 0, a key whose stored window is stale is admitted by the check-then-count limiter and denied by this one. |
| `Metrics.Registry.constructor` | v2/quant_contract/contract.py:47-48 | The counter and the histogram start empty. |
| `Metrics.Registry.CountRequest` | v2/quant_contract/contract.py:47 | The (route, status) counter rises by exactly one. No other series changes. |
| `Metrics.Registry.ObserveLatency` | v2/quant_contract/contract.py:48 | The route's latency observation count rises by exactly one. The request counters are unchanged. |
| `Contract.TitleFrom` | v2/quant_contract/contract.py:119 | `str.title()` on ASCII keeps the length and each character's casedness. A character is lower-cased right after a letter and upper-cased everywhere else. |
| `Contract.TitleIdempotent` | v2/quant_contract/contract.py:119 | Title-casing an already title-cased string changes nothing. |
| `Contract.ReplaceDashes` | v2/quant_contract/contract.py:119 | `replace('-', ' ')` keeps the length and turns exactly the dashes into spaces. |
| `Contract.DashesBecomeSpaces` | v2/quant_contract/contract.py:119 | After replacing dashes and title-casing, no dash remains. Each former dash is a space, and every other character is a case variant of the original. |
| `Contract.DisplayName` | v2/quant_contract/contract.py:119 | The model name in the success envelope has the service name's length and no dash. Dashes become spaces, other characters keep their letters, and the name is already title-cased. |
| `Contract.Completed` | v2/quant_contract/contract.py:112-136 | Status is 200 exactly when the result renders. It is 500 for an exception raised by the prediction or by rendering its result. `ok` holds exactly on 200. A rendered result is passed through with no warnings. An exception's type name and message are passed through with empty details. The `X-Trace-Id` header equals the body's trace id. `X-Model` and `X-Model-Version` carry the raw service name and the version. No other header is set. |
| `Contract.Conclude` | v2/quant_contract/contract.py:112-136 | The reply is `Completed` on the outcome. A rendered result or a raised exception adds one count under the reply's status (200 or 500) and one latency observation. A result whose rendering raises counts 200 and observes latency inside the `try`, then counts 500 and observes latency again in the `except`. Counters never decrease. |
| `Contract.HandlePredict` | v2/quant_contract/contract.py:101-137 | The limiter moves to `Admit`'s new map for the client key (the host, or `"x"`). On denial, `predict_fn` is not called, `('/predict','429')` rises by one, and no latency is observed. The reply is 429 with an `ok = false` envelope: type `RateLimit`, message `Too many requests`, empty details, no X-* headers. On admission, the function is called exactly once, with `{"params": ..., "data": ...}`. The reply, counts and latency are then those of `Conclude` on its outcome. |
| `Values.Truthy` | ops_instrumentation.py:51 | `bool()` of a returned value is false exactly for None, False, 0 and the empty string, list and dict. |
| `Contract.ClientKey` | v2/quant_contract/contract.py:103 | The client key is the peer's host, or `"x"` when the request has no client. |
| `Contract.PredictArgument` | v2/quant_contract/contract.py:115 | The prediction function gets a dict with exactly the keys `params` and `data`, holding the body's `params` and `data`. |
| `Ops.ClientKey` | ops_instrumentation.py:34 | The client key is the peer's host, or `"unknown"` when the request has no client. |
| `Ops.RateLimited` | ops_instrumentation.py:37 | The denial reply is 429 with body `{"detail": "rate limit"}` and no headers. |
| `Metrics.Bump` | v2/quant_contract/contract.py:110 | `inc()` raises the labelled counter by exactly one, starting from zero for a new series, and leaves every other series as it was. |
| `Values.SetHeader` | ops_instrumentation.py:43-44 | Afterwards, a lookup of the name in any case finds the new value. The entry under the lower-cased name is replaced, and every other entry is kept. Lower-cased names stay lower-cased. |
| `Ops.Forwarded` | ops_instrumentation.py:40-45 | For a downstream response whose header names are lower-cased, as the framework stores them: the response keeps its status and body, and its header names stay lower-cased. A case-insensitive lookup of `X-Trace-Id` and `X-Model-Version` finds the trace id and the model version; any entry of the same name in any case is replaced. Every other header is kept. A downstream exception propagates unchanged. |
| `Ops.DownstreamTraceReplaced` | ops_instrumentation.py:43-44 | A downstream `x-trace-id` is overwritten by the new trace id, not kept beside it. |
| `Ops.Middleware` | ops_instrumentation.py:33-45 | The limiter moves to `OpsLimiter.Admit`'s new map for the client key (the host, or `"unknown"`). `call_next` runs iff the call is admitted. On denial: a 429 `{"detail": "rate limit"}` reply, `(path, "429")` rises by one, and no latency is observed. On admission: the outcome is `Forwarded`, exactly one latency observation is recorded for the path even when `call_next` raises, and no request counter changes. |
| `Ops.Ready` | ops_instrumentation.py:48-53 | With no check: ready with 200. A raising check gives not ready with 503. Otherwise ready is `bool` of the returned value, and the status is 200 exactly when ready. The body is `{"ready": ..., "started": ...}`. |

## Left out

- Trace-id generation: a SHA-1 digest of the clock, host, path and process id, cut to 16 hex characters. It is a foreign hash plus clock reads, so the trace id is an opaque input.
- Timing: `time.perf_counter`, `time.time`, the `timing_ms` field and the seconds given to the histogram are clock-derived floating-point values. Only the fact that an observation happened is modelled.
- Prometheus internals: histogram buckets, registry, and the `/metrics` text exposition (`generate_latest`) come from a third-party library. Counters are a plain map.
- Framework plumbing: FastAPI routing, pydantic validation (the 422 path never reaches the handler) and JSON serialisation of responses. Framework default headers such as content-type are not modelled.
- `/health` and `/meta` in every file: constant or environment and platform reads with timestamps.
- The prediction stub `_predict` in `v2/main.py`: floating-point arithmetic with `sqrt`, injected as the callback. The application wiring in `main.py` and `v2/main.py`, and the tests, are not part of this model.
- Concurrency: the handlers are async and the limiter and counters are process-global. The model is sequential, with one call at a time.
- `Contract.TitleFrom`, `Contract.DisplayName`: model `str.title()` on ASCII letters only. Any other character counts as uncased, with no case mapping, while Python also cases non-ASCII letters and can change the length (`'ß'.title() == 'Ss'`). So `DisplayName`'s "same length as the service name" holds for ASCII names only.
- `Values.SetHeader`, `Contract.Completed`, `Ops.Forwarded`: header values are assumed latin-1. The framework encodes a header value as latin-1 and raises on any other character, for a service name such as `"モデル"` or a model version outside latin-1. In the source, that raise comes from the assignments at `v2/quant_contract/contract.py:134-136` and `ops_instrumentation.py:43-44`, after the counts and the latency observation. It is outside the handler's `try`, so the framework sends its own 500 with no envelope. The model sets any string.
- `Contract.HandlePredict`: two paths out of the `try` are not modelled. An exception outside `Exception` (`SystemExit`, `KeyboardInterrupt`) escapes the handler with no count and no latency observation. A prediction that never returns stalls the request, since there is no timeout. The render-failure path is modelled (`PredictOutcome.Unrenderable`): there, one dispatch raises two counter cells.
- `Values.Value`: numbers are integers, so floating-point JSON numbers are not modelled. `Values.Truthy` is Python's `bool()` on these values.
