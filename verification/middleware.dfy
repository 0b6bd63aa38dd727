/**
 * The rate-limiting middleware: for each request it derives a bucket name,
 * skips rate limiting when the name is the empty string, and otherwise consumes
 * one token from the named bucket, forwards the request or answers 429
 * Too Many Requests, and stamps the bucket's state onto the response as three
 * headers.
 *
 * The token-bucket manager, the response factory, the downstream handler and
 * the name callback are collaborators whose code is not part of this model:
 * they are function values.
 * The manager's storage is an abstract state `M` threaded through its calls.
 */
module RateLimiter {
  import opened Http

  /** The period passed to the manager's `getLimit` until it is changed. */
  const DefaultLimitPeriod: int := 3600

  /** Status code 429 of section 4 of RFC 6585, and its reason phrase. */
  const TooManyRequestsStatus: int := 429
  const TooManyRequestsReason: string := "Too Many Requests"

  const LimitHeader: string := "X-Rate-Limit-Limit"
  const RemainingHeader: string := "X-Rate-Limit-Remaining"
  const ResetHeader: string := "X-Rate-Limit-Reset"

  /** One of the three header names the middleware stamps, compared without regard to case. */
  predicate IsRateLimitHeader(name: string)
  {
    SameName(name, LimitHeader) || SameName(name, RemainingHeader) || SameName(name, ResetHeader)
  }

  /** What the manager's `consume` reports: whether a token was taken, the tokens left, the reset time, and its next state. */
  datatype Consumption<!M> = Consumption(consumed: bool, remaining: int, reset: int, next: M)

  /** The token-bucket manager as an oracle: `consume(state, name)` and `getLimit(state, period)`. */
  datatype Manager<!M> = Manager(consume: (M, string) -> Consumption<M>, getLimit: (M, int) -> int)

  /** The middleware's configuration: the manager, the response factory, the bucket-name callback and the limit period. */
  datatype Middleware<!Req, !M> =
    Middleware(manager: Manager<M>, responseFactory: ResponseFactory, nameCallback: Req -> string, limitPeriod: int)

  /** A call the middleware makes on a collaborator while processing one request. */
  datatype Call =
    | CallName
    | CallConsume(name: string)
    | CallGetLimit(period: int)
    | CallHandle
    | CallCreateResponse(status: int, reason: string)
  {
    predicate IsManagerCall()
    {
      CallConsume? || CallGetLimit?
    }
  }

  /** The number of times a call occurs in a trace. */
  function Count(calls: seq<Call>, c: Call): nat
  {
    multiset(calls)[c]
  }

  /** The manager is not called at all. */
  predicate NoManagerCalls(calls: seq<Call>)
  {
    forall i :: 0 <= i < |calls| ==> !calls[i].IsManagerCall()
  }

  /**
   * The manager is called exactly twice: `consume` once with the bucket name and
   * `getLimit` once with the period, and nothing else is asked of it.
   */
  predicate ManagerCalledOnce(calls: seq<Call>, name: string, period: int)
  {
    && Count(calls, CallConsume(name)) == 1
    && Count(calls, CallGetLimit(period)) == 1
    && forall i :: 0 <= i < |calls| && calls[i].IsManagerCall() ==>
         calls[i] == CallConsume(name) || calls[i] == CallGetLimit(period)
  }

  /** The result of processing one request: the response, the manager's next state and the calls made. */
  datatype Outcome<!M> = Outcome(response: Response, manager: M, calls: seq<Call>)

  /** A middleware built from its collaborators. */
  function New<Req, M>(manager: Manager<M>, responseFactory: ResponseFactory, nameCallback: Req -> string): (mw: Middleware<Req, M>)
    ensures mw.limitPeriod == DefaultLimitPeriod
    ensures mw.manager == manager && mw.responseFactory == responseFactory && mw.nameCallback == nameCallback
  {
    Middleware(manager, responseFactory, nameCallback, DefaultLimitPeriod)
  }

  /** `setLimitPeriod(period)`: the period becomes exactly `period`, the collaborators stay. */
  function SetLimitPeriod<Req, M>(mw: Middleware<Req, M>, period: int): (mw': Middleware<Req, M>)
    ensures mw'.limitPeriod == period
    ensures mw'.manager == mw.manager && mw'.responseFactory == mw.responseFactory
    ensures mw'.nameCallback == mw.nameCallback
  {
    mw.(limitPeriod := period)
  }

  /** The three stamped names are pairwise different headers. */
  lemma RateLimitHeadersDistinct()
    ensures !SameName(LimitHeader, RemainingHeader)
    ensures !SameName(LimitHeader, ResetHeader)
    ensures !SameName(RemainingHeader, ResetHeader)
  {
    assert Lower(LimitHeader)[13] != Lower(ResetHeader)[13];
  }

  /**
   * `after` is `before` with the three rate-limit headers holding exactly the
   * given values; status, reason and every other header are as in `before`.
   */
  ghost predicate Annotated(before: Response, after: Response, limit: int, remaining: int, reset: int)
  {
    && after.status == before.status
    && after.reason == before.reason
    && HasHeader(after, LimitHeader) && GetHeader(after, LimitHeader) == [Num(limit)]
    && HasHeader(after, RemainingHeader) && GetHeader(after, RemainingHeader) == [Num(remaining)]
    && HasHeader(after, ResetHeader) && GetHeader(after, ResetHeader) == [Num(reset)]
    && forall n :: !IsRateLimitHeader(n) ==>
         HasHeader(after, n) == HasHeader(before, n) && GetHeader(after, n) == GetHeader(before, n)
  }

  /** `addHeaders`: stamps limit, remaining and reset onto the response. */
  function AddHeaders(response: Response, limit: int, remaining: int, reset: int): (r: Response)
    ensures Annotated(response, r, limit, remaining, reset)
    ensures response.Valid() ==> r.Valid()
  {
    RateLimitHeadersDistinct();
    WithHeader(WithHeader(WithHeader(response, LimitHeader, Num(limit)), RemainingHeader, Num(remaining)), ResetHeader, Num(reset))
  }

  /** Stamping a response a second time leaves only the second stamp. */
  lemma AddHeadersTwice(r: Response, l: int, rm: int, rs: int, l': int, rm': int, rs': int)
    ensures AddHeaders(AddHeaders(r, l, rm, rs), l', rm', rs') == AddHeaders(r, l', rm', rs')
  {
    RateLimitHeadersDistinct();
    var a := WithHeader(r, LimitHeader, Num(l));
    var b := WithHeader(a, RemainingHeader, Num(rm));
    var c := WithHeader(b, ResetHeader, Num(rs));
    calc {
      AddHeaders(c, l', rm', rs');
      WithHeader(WithHeader(WithHeader(c, LimitHeader, Num(l')), RemainingHeader, Num(rm')), ResetHeader, Num(rs'));
      { WithHeaderCommutes(b, ResetHeader, LimitHeader, Num(rs), Num(l'));
        WithHeaderCommutes(a, RemainingHeader, LimitHeader, Num(rm), Num(l'));
        WithHeaderOverwrites(r, LimitHeader, LimitHeader, Num(l), Num(l')); }
      WithHeader(WithHeader(WithHeader(WithHeader(WithHeader(r, LimitHeader, Num(l')), RemainingHeader, Num(rm)), ResetHeader, Num(rs)), RemainingHeader, Num(rm')), ResetHeader, Num(rs'));
      { var a' := WithHeader(r, LimitHeader, Num(l'));
        WithHeaderCommutes(WithHeader(a', RemainingHeader, Num(rm)), ResetHeader, RemainingHeader, Num(rs), Num(rm'));
        WithHeaderOverwrites(a', RemainingHeader, RemainingHeader, Num(rm), Num(rm')); }
      WithHeader(WithHeader(WithHeader(WithHeader(r, LimitHeader, Num(l')), RemainingHeader, Num(rm')), ResetHeader, Num(rs)), ResetHeader, Num(rs'));
      { WithHeaderOverwrites(WithHeader(WithHeader(r, LimitHeader, Num(l')), RemainingHeader, Num(rm')), ResetHeader, ResetHeader, Num(rs), Num(rs')); }
      AddHeaders(r, l', rm', rs');
    }
  }

  /**
   * `createTooManyRequestResponse`: the factory's response for 429 Too Many
   * Requests; a factory keeping the PSR-17 promise gives exactly that status
   * and reason, and `CreateResponse` gives it with no headers.
   */
  function CreateTooManyRequestResponse(factory: ResponseFactory): (r: Response)
    ensures HonoursStatus(factory) ==> r.status == 429 && r.reason == "Too Many Requests"
    ensures factory == CreateResponse ==> forall name :: !HasHeader(r, name)
  {
    factory(TooManyRequestsStatus, TooManyRequestsReason)
  }

  /**
   * What a skipped request yields: the handler's response untouched, the
   * manager neither called nor changed, the handler called once.
   */
  ghost predicate Skipped<Req, M>(state: M, request: Req, handler: Req -> Response, o: Outcome<M>)
  {
    && o.response == handler(request)
    && o.manager == state
    && NoManagerCalls(o.calls)
    && Count(o.calls, CallHandle) == 1
  }

  /**
   * What a rate-limited request with bucket `name` yields: the manager's state
   * after one `consume(name)`, `consume` and `getLimit(limitPeriod)` each called
   * once; when a token was taken the handler ran once and its response is kept,
   * otherwise the handler never ran and the response is the factory's 429; either way
   * the three headers carry the limit, the remaining tokens and the reset time.
   */
  ghost predicate RateLimited<Req, M>(mw: Middleware<Req, M>, state: M, name: string, request: Req, handler: Req -> Response, o: Outcome<M>)
  {
    var c := mw.manager.consume(state, name);
    var limit := mw.manager.getLimit(c.next, mw.limitPeriod);
    && o.manager == c.next
    && ManagerCalledOnce(o.calls, name, mw.limitPeriod)
    && (c.consumed ==>
          && Count(o.calls, CallHandle) == 1
          && Count(o.calls, CallCreateResponse(TooManyRequestsStatus, TooManyRequestsReason)) == 0
          && Annotated(handler(request), o.response, limit, c.remaining, c.reset))
    && (!c.consumed ==>
          && Count(o.calls, CallHandle) == 0
          && Count(o.calls, CallCreateResponse(TooManyRequestsStatus, TooManyRequestsReason)) == 1
          && Annotated(CreateTooManyRequestResponse(mw.responseFactory), o.response, limit, c.remaining, c.reset))
  }

  /** The calls made for a non-empty bucket name: the callback, the manager twice, then the handler or the factory. */
  function EvaluationTrace(name: string, period: int, consumed: bool): (calls: seq<Call>)
    ensures Count(calls, CallName) == 1
    ensures ManagerCalledOnce(calls, name, period)
    ensures Count(calls, CallHandle) == if consumed then 1 else 0
    ensures Count(calls, CallCreateResponse(TooManyRequestsStatus, TooManyRequestsReason)) == if consumed then 0 else 1
  {
    [CallName, CallConsume(name), CallGetLimit(period),
     if consumed then CallHandle else CallCreateResponse(TooManyRequestsStatus, TooManyRequestsReason)]
  }

  /**
   * The rate-limited part of `process`, for a non-empty bucket name: one
   * `consume`, one `getLimit` with the configured period, then the handler's
   * response or 429, stamped with the three headers.
   */
  function Evaluate<Req, M>(mw: Middleware<Req, M>, state: M, name: string, request: Req, handler: Req -> Response): (o: Outcome<M>)
    ensures Count(o.calls, CallName) == 1
    ensures RateLimited(mw, state, name, request, handler, o)
    ensures handler(request).Valid() && CreateTooManyRequestResponse(mw.responseFactory).Valid() ==> o.response.Valid()
  {
    var c := mw.manager.consume(state, name);
    var limit := mw.manager.getLimit(c.next, mw.limitPeriod);
    var response := if c.consumed then handler(request) else CreateTooManyRequestResponse(mw.responseFactory);
    Outcome(AddHeaders(response, limit, c.remaining, c.reset), c.next, EvaluationTrace(name, mw.limitPeriod, c.consumed))
  }

  /**
   * `process(request, handler)`. The name callback is asked for the bucket
   * name; the empty string, and only it, bypasses the manager and returns the
   * handler's response untouched. Any other name is consumed from once, the
   * limit for the configured period is looked up once, and the request is
   * either handled or answered with 429; the result carries the three headers.
   */
  function Process<Req, M>(mw: Middleware<Req, M>, state: M, request: Req, handler: Req -> Response): (o: Outcome<M>)
    ensures Count(o.calls, CallName) == 1
    ensures mw.nameCallback(request) == "" ==> Skipped(state, request, handler, o)
    ensures mw.nameCallback(request) != "" ==> RateLimited(mw, state, mw.nameCallback(request), request, handler, o)
    ensures handler(request).Valid() && CreateTooManyRequestResponse(mw.responseFactory).Valid() ==> o.response.Valid()
  {
    var name := mw.nameCallback(request);
    if name == "" then
      Outcome(handler(request), state, [CallName, CallHandle])
    else
      Evaluate(mw, state, name, request, handler)
  }

  /** A manager called once for `consume` has been called. */
  lemma CalledOnceIsCalled(calls: seq<Call>, name: string, period: int)
    requires ManagerCalledOnce(calls, name, period)
    ensures !NoManagerCalls(calls)
  {
    assert CallConsume(name) in multiset(calls);
    var i :| 0 <= i < |calls| && calls[i] == CallConsume(name);
    assert calls[i].IsManagerCall();
  }

  /** The manager is left alone exactly when the bucket name is the empty string. */
  lemma ManagerCalledIffNamed<Req, M>(mw: Middleware<Req, M>, state: M, request: Req, handler: Req -> Response)
    ensures NoManagerCalls(Process(mw, state, request, handler).calls) <==> mw.nameCallback(request) == ""
  {
    var o := Process(mw, state, request, handler);
    var name := mw.nameCallback(request);
    if name != "" {
      assert RateLimited(mw, state, name, request, handler, o);
      CalledOnceIsCalled(o.calls, name, mw.limitPeriod);
    }
  }

  /** The handler runs once when the request is skipped or a token was taken, and never otherwise. */
  lemma HandlerRunsIffAdmitted<Req, M>(mw: Middleware<Req, M>, state: M, request: Req, handler: Req -> Response)
    ensures
      var name := mw.nameCallback(request);
      var admitted := name == "" || mw.manager.consume(state, name).consumed;
      Count(Process(mw, state, request, handler).calls, CallHandle) == if admitted then 1 else 0
  {
  }

  /**
   * A rejected request is answered with the factory's 429 Too Many Requests
   * response, whose headers it keeps, plus the three rate-limit headers.
   */
  lemma RejectionHeaders<Req, M>(mw: Middleware<Req, M>, state: M, request: Req, handler: Req -> Response)
    requires mw.nameCallback(request) != ""
    requires !mw.manager.consume(state, mw.nameCallback(request)).consumed
    ensures HonoursStatus(mw.responseFactory) ==>
              && Process(mw, state, request, handler).response.status == 429
              && Process(mw, state, request, handler).response.reason == "Too Many Requests"
    ensures forall n :: HasHeader(Process(mw, state, request, handler).response, n) <==>
              IsRateLimitHeader(n) || HasHeader(mw.responseFactory(429, "Too Many Requests"), n)
  {
    var r := Process(mw, state, request, handler).response;
    forall n | IsRateLimitHeader(n)
      ensures HasHeader(r, n)
    {
      if SameName(n, LimitHeader) {
        assert HasHeader(r, LimitHeader);
      } else if SameName(n, RemainingHeader) {
        assert HasHeader(r, RemainingHeader);
      } else {
        assert HasHeader(r, ResetHeader);
      }
    }
  }

  /** Stamping with another limit differs from the first stamp only in the limit header. */
  lemma RestampLimit(r: Response, l: int, l': int, rm: int, rs: int)
    ensures AddHeaders(r, l', rm, rs) == WithHeader(AddHeaders(r, l, rm, rs), LimitHeader, Num(l'))
  {
    RateLimitHeadersDistinct();
    var a := WithHeader(r, LimitHeader, Num(l));
    var b := WithHeader(a, RemainingHeader, Num(rm));
    WithHeaderCommutes(b, ResetHeader, LimitHeader, Num(rs), Num(l'));
    WithHeaderCommutes(a, RemainingHeader, LimitHeader, Num(rm), Num(l'));
    WithHeaderOverwrites(r, LimitHeader, LimitHeader, Num(l), Num(l'));
  }

  /**
   * After `setLimitPeriod(p)` the next request asks `getLimit` for `p` and
   * reports its answer as the limit; the period does not reach `consume`.
   */
  lemma SetLimitPeriodReachesGetLimit<Req, M>(mw: Middleware<Req, M>, p: int, state: M, request: Req, handler: Req -> Response)
    requires mw.nameCallback(request) != ""
    ensures
      var o := Process(SetLimitPeriod(mw, p), state, request, handler);
      var c := mw.manager.consume(state, mw.nameCallback(request));
      && Count(o.calls, CallGetLimit(p)) == 1
      && GetHeader(o.response, LimitHeader) == [Num(mw.manager.getLimit(c.next, p))]
  {
  }

  /**
   * Changing the period changes nothing but the reported limit: the same
   * manager state results, and the response differs at most in the limit header.
   */
  lemma PeriodOnlyAffectsLimit<Req, M>(mw: Middleware<Req, M>, p: int, state: M, request: Req, handler: Req -> Response)
    ensures
      var o := Process(mw, state, request, handler);
      var o' := Process(SetLimitPeriod(mw, p), state, request, handler);
      var name := mw.nameCallback(request);
      var c := mw.manager.consume(state, name);
      && o'.manager == o.manager
      && o'.response == if name == "" then o.response
                        else WithHeader(o.response, LimitHeader, Num(mw.manager.getLimit(c.next, p)))
  {
    var name := mw.nameCallback(request);
    if name != "" {
      var c := mw.manager.consume(state, name);
      var response := if c.consumed then handler(request) else CreateTooManyRequestResponse(mw.responseFactory);
      RestampLimit(response, mw.manager.getLimit(c.next, mw.limitPeriod), mw.manager.getLimit(c.next, p), c.remaining, c.reset);
    }
  }

  /** The responses, final manager state and calls of processing requests one after another. */
  datatype RunOutcome<!M> = RunOutcome(responses: seq<Response>, manager: M, calls: seq<Call>)

  /** A host passing each request in turn through the same middleware, threading the manager's state. */
  function Run<Req, M>(mw: Middleware<Req, M>, state: M, requests: seq<Req>, handler: Req -> Response): (o: RunOutcome<M>)
    ensures |o.responses| == |requests|
    decreases |requests|
  {
    if |requests| == 0 then RunOutcome([], state, [])
    else
      var first := Process(mw, state, requests[0], handler);
      var rest := Run(mw, first.manager, requests[1..], handler);
      RunOutcome([first.response] + rest.responses, rest.manager, first.calls + rest.calls)
  }

  /**
   * However many requests are skipped in a row, the manager is never called
   * and its state never changes; each response is the handler's own.
   */
  lemma {:induction false} SkippedRunLeavesManagerAlone<Req, M>(mw: Middleware<Req, M>, state: M, requests: seq<Req>, handler: Req -> Response)
    requires forall i :: 0 <= i < |requests| ==> mw.nameCallback(requests[i]) == ""
    ensures var o := Run(mw, state, requests, handler);
      && o.manager == state
      && NoManagerCalls(o.calls)
      && Count(o.calls, CallHandle) == |requests|
      && forall i :: 0 <= i < |requests| ==> o.responses[i] == handler(requests[i])
    decreases |requests|
  {
    if |requests| > 0 {
      var first := Process(mw, state, requests[0], handler);
      SkippedRunLeavesManagerAlone(mw, state, requests[1..], handler);
      var rest := Run(mw, state, requests[1..], handler);
      assert multiset(first.calls + rest.calls) == multiset(first.calls) + multiset(rest.calls);
    }
  }

  /** A bucket holding one token and never refilling: its state is the number of tokens left. */
  function OneTokenBucket(): Manager<int>
  {
    Manager((tokens: int, name: string) =>
              if tokens > 0 then Consumption(true, tokens - 1, 60, tokens - 1)
              else Consumption(false, 0, 60, tokens),
            (tokens: int, period: int) => 1)
  }

  /**
   * Two requests for the same bucket of one token: the first is handled with
   * status 200 and the three headers, the second is refused with 429, without
   * running the handler, and still carries the three headers with the same limit.
   */
  lemma OneTokenScenario<Req>(request: Req)
    ensures
      var mw := New(OneTokenBucket(), CreateResponse, (r: Req) => "client");
      var handler := (r: Req) => CreateResponse(200, "OK");
      var first := Process(mw, 1, request, handler);
      var second := Process(mw, first.manager, request, handler);
      && Count(first.calls, CallHandle) == 1
      && first.response.status == 200
      && HasHeader(first.response, LimitHeader) && HasHeader(first.response, RemainingHeader)
      && HasHeader(first.response, ResetHeader)
      && GetHeader(first.response, LimitHeader) == [Num(1)]
      && GetHeader(first.response, RemainingHeader) == [Num(0)]
      && Count(second.calls, CallHandle) == 0
      && second.response.status == 429
      && HasHeader(second.response, LimitHeader) && HasHeader(second.response, RemainingHeader)
      && HasHeader(second.response, ResetHeader)
      && GetHeader(second.response, LimitHeader) == [Num(1)]
  {
  }
}
