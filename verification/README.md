# PSR-15 rate-limiting middleware, modelled in Dafny

This project models the request-gating middleware of `razonyang/psr-rate-limiter`.
For every request the middleware does the following:

1. It asks a caller-supplied callback for a bucket name.
2. If the name is exactly the empty string, it hands the request to the downstream handler and returns that response untouched.
3. Otherwise it asks a token-bucket manager to consume one token from that bucket. It then asks the manager for the nominal limit of the configured period (3600 seconds unless `setLimitPeriod` changed it).
4. It either forwards the request to the handler or builds a `429 Too Many Requests` response (section 4 of RFC 6585).
5. It stamps `X-Rate-Limit-Limit`, `X-Rate-Limit-Remaining` and `X-Rate-Limit-Reset` onto whichever response results.

The model has two modules:

- `Http` (`http.dfy`) is the part of the PSR-7 message model the middleware uses. A `Response` is a status, a reason phrase and a header collection. Header names compare without regard to case, as PSR-7 requires, using ASCII lower-casing. The module has `hasHeader`, `getHeader`, the immutable `withHeader`, and the PSR-17 `createResponse`.
- `RateLimiter` (`middleware.dfy`) holds the middleware:
  - The configuration datatype `Middleware` and the constants.
  - `AddHeaders`, `CreateTooManyRequestResponse` and `Process`.
  - The lemmas relating several calls.

The collaborators are function values:

- The manager is a pair of oracles over an abstract state `M`. The state is threaded through the calls so that a caller can see whether the manager was touched.
  - `consume(state, name)` returns whether a token was taken, the remaining count, the reset time and the next state.
  - `getLimit(state, period)` returns the limit.
- The response factory injected through the constructor is a function from status and reason to a response. `HonoursStatus` states the PSR-17 promise that the response has the requested status and reason. `Http.CreateResponse`, a factory that adds no headers, keeps that promise.
- The downstream handler and the name callback are plain functions of the request.

`Process` returns three things:

- the response;
- the manager's next state;
- the trace of collaborator calls it made, as a `seq<Call>`.

"Called exactly once" and "never called" are stated as counts over that trace.

`consume` receives only the bucket name and its two out-parameters (src/Middleware.php:73). The period reaches only `getLimit` (line 74). `PeriodOnlyAffectsLimit` proves that changing the period changes nothing but the reported limit.

## Model

| member | source | states |
|---|---|---|
| `Http.CreateResponse` | src/Middleware.php:91 | The factory's response has exactly the requested status and reason phrase and carries no header under any name. |
| `Http.WithHeader` | src/Middleware.php:107-109 | `withHeader` keeps status and reason. Afterwards the named header, looked up under any casing of its name, holds exactly the one given value. Every header with a different name keeps its presence and values. Well-formedness of the header collection is preserved. |
| `Http.WithHeaderOverwrites` | src/Middleware.php:107-109 | Setting a header again under a name equal up to case replaces the earlier setting completely. |
| `Http.WithHeaderCommutes` | src/Middleware.php:107-109 | Setting two headers with different names gives the same response in either order. |
| `Http.CreateResponseHonoursStatus` | src/Middleware.php:91 | `CreateResponse`, used as a factory, gives every response exactly the requested status and reason. |
| `RateLimiter.New` | src/Middleware.php:59-64 | A new middleware keeps the given manager, response factory and callback, and its limit period is the default 3600 declared at line 42. |
| `RateLimiter.SetLimitPeriod` | src/Middleware.php:49-52 | After `setLimitPeriod(p)` the period is exactly `p`; the manager, factory and callback are unchanged. |
| `RateLimiter.RateLimitHeadersDistinct` | src/Middleware.php:107-109 | The three stamped names are pairwise different headers, even ignoring case, so no stamp overwrites another. |
| `RateLimiter.AddHeaders` | src/Middleware.php:104-110 | `addHeaders` returns the response with `X-Rate-Limit-Limit`, `-Remaining` and `-Reset` present and holding exactly limit, remaining and reset. Status, reason and every other header are as before. |
| `RateLimiter.AddHeadersTwice` | src/Middleware.php:104-110 | Stamping an already stamped response replaces the three values: only the last stamp remains. |
| `RateLimiter.RestampLimit` | src/Middleware.php:104-110 | Stamping with a different limit gives the first stamp with only the limit header replaced. |
| `RateLimiter.CreateTooManyRequestResponse` | src/Middleware.php:89-92 | The rejection response is the injected factory's. A factory keeping its status promise gives status 429 with reason phrase "Too Many Requests". With `CreateResponse` as the factory it carries no headers. |
| `RateLimiter.EvaluationTrace` | src/Middleware.php:73-79 | For a rate-limited request the name callback is called once, `consume(name)` and `getLimit(period)` once each, no other manager call is made, the handler is called once if a token was taken and never otherwise, and the factory is called for a 429 exactly when the handler is not. |
| `RateLimiter.Evaluate` | src/Middleware.php:73-81 | For a non-empty name the outcome meets `RateLimited`. The manager ends in the state after one `consume`. If a token was taken, the handler's response is kept with the three headers added. If not, the handler is not called and the factory's 429 gets the three headers. A well-formed header collection from the handler and the factory gives a well-formed result. |
| `RateLimiter.Process` | src/Middleware.php:66-82 | The callback is called once. The empty name gives `Skipped`: the handler's response unchanged, the manager neither called nor changed, and the handler called once. Any other name gives `RateLimited`, as for `Evaluate`. Well-formed inputs give a well-formed response. |
| `RateLimiter.ManagerCalledIffNamed` | src/Middleware.php:68-74 | The manager is left uncalled if and only if the bucket name is exactly the empty string. |
| `RateLimiter.HandlerRunsIffAdmitted` | src/Middleware.php:69-79 | The handler runs exactly once when the request is skipped or a token was taken, and zero times otherwise. |
| `RateLimiter.RejectionHeaders` | src/Middleware.php:75-81 | A refused request gets the factory's response: 429 "Too Many Requests" when the factory keeps its status promise. Under any casing of a name, a header is present exactly when it is one of the three rate-limit headers or the factory's 429 response carries it. |
| `RateLimiter.SetLimitPeriodReachesGetLimit` | src/Middleware.php:73-74 | After `setLimitPeriod(p)` the next rate-limited request calls `getLimit(p)` once and reports its answer as `X-Rate-Limit-Limit`. |
| `RateLimiter.PeriodOnlyAffectsLimit` | src/Middleware.php:73-74 | Two middlewares differing only in period leave the manager in the same state. Their responses are identical, except that the limit header holds the other period's limit when the request is rate-limited. |
| `RateLimiter.SkippedRunLeavesManagerAlone` | src/Middleware.php:68-71 | Over any run of requests whose names are all empty: the manager is never called, its state never changes, the handler runs once per request, and each response is the handler's own. |
| `RateLimiter.OneTokenScenario` | tests/MiddlewareTest.php:81-104 | With a one-token bucket: the first request is handled with status 200 and 0 tokens remaining. Both responses carry all three headers, with limit 1. The second is refused with 429 without running the handler. |

## Left out

- The token-bucket manager (`ManagerInterface`, `MemcachedManager`), its Memcached storage and its floating-point refill rate are not part of this model. The manager is an oracle pair over an abstract state.
- Collaborator failures are not modelled. The oracles, the handler and the name callback are total functions, so an exception thrown by the manager, the callback or the handler, which PHP would pass through `process` unchanged, has no counterpart.
- The name callback is typed to return a string. The strict comparison `=== ''` is therefore modelled as equality with the empty string. A callback returning `null`, `false` or `0` cannot be expressed.
- Only a response's status, reason phrase and headers are modelled. The body, protocol version, request objects and header-value validation of PSR-7 are left out. Header names are lower-cased with ASCII rules only.
- Integer header values are stored as integers (`HeaderValue.Num`) and are not converted to strings. Nothing in the middleware computes with them, so PHP's 64-bit integer width plays no part.
- `getResponseFactory` (src/Middleware.php:28-31) is a plain accessor and is not modelled. The factory itself is the `responseFactory` field of `Middleware`.
- `createTooManyRequestResponse` and `addHeaders` are `protected` (src/Middleware.php:89, 104), so a subclass may override them. The model covers the class as written, not subclasses.
- Header order is not modelled. Headers are an unordered map keyed by lower-cased name, while a PSR-7 `getHeaders()` array keeps insertion order. `Http.WithHeaderCommutes`, `RateLimiter.RestampLimit` and `RateLimiter.PeriodOnlyAffectsLimit` therefore state equality up to the order of differently named headers, which HTTP gives no meaning.
- Concurrency, and the atomicity of `consume` across simultaneous requests, belong to the manager and are not modelled. `Run` processes requests one after another.
