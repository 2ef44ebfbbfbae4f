/**
 * The Lambda handler: the generic engine instantiated with the registered
 * middlewares Error, AuditLog and Request (in that order) and the router as
 * the dispatch step.
 */
module App {
  import opened Wrappers
  import opened JsValues
  import opened Types
  import opened Pipeline
  import ErrorMiddleware
  import AuditLogMiddleware
  import RequestMiddleware
  import Router

  datatype Middleware = ErrorMw | AuditLogMw(origin: string) | RequestMw

  /** The origin the audit middleware is constructed with. */
  const Origin: string := "LambdaMiddlewareRouter::api"

  /** The registration order. */
  const Registered: seq<Middleware> := [ErrorMw, AuditLogMw(Origin), RequestMw]

  function MwBefore(env: Env, traceId: string, m: Middleware, c: Context): Outcome {
    match m
    case ErrorMw => ErrorMiddleware.Before(c)
    case AuditLogMw(origin) => AuditLogMiddleware.Before(env, traceId, origin, c)
    case RequestMw => RequestMiddleware.Before(env, c)
  }

  function MwAfter(env: Env, traceId: string, m: Middleware, c: Context): Outcome {
    match m
    case ErrorMw => ErrorMiddleware.After(traceId, c)
    case AuditLogMw(_) => AuditLogMiddleware.After(c)
    case RequestMw => RequestMiddleware.After(c)
  }

  /** The handler the invocation starts with: empty request, response and audit record, `error` null. */
  function Initial(ev: ApiEvent, inv: Invocation): Context {
    Context(ev, inv, None, None, EmptyAudit, Null)
  }

  /**
   * One invocation; the trace id is the invocation's request id. All three
   * middlewares are started, the router is dispatched, and the run ends on
   * the error middleware's verdict on the dispatched context.
   */
  function Invoke(env: Env, ev: ApiEvent, inv: Invocation): (r: RunResult)
    ensures r.started == 3 && r.dispatched
    ensures r.ctx == ErrorMiddleware.After(inv.awsRequestId, Dispatched(env, ev, inv)).ctx
  {
    var traceId := inv.awsRequestId;
    BeforePhase(env, ev, inv);
    AfterPhase(env, ev, inv);
    Run(Registered,
        (m, c) => MwBefore(env, traceId, m, c),
        (m, c) => MwAfter(env, traceId, m, c),
        c => Router.Dispatch(env, traceId, c),
        Initial(ev, inv))
  }

  /** What the handler returns: `handler.response`, which always exists and carries the trace id. */
  function Handler(env: Env, ev: ApiEvent, inv: Invocation): (r: Option<Response>)
    ensures r.Some? && "TraceID" in r.value.control && r.value.control["TraceID"] == JString(inv.awsRequestId)
  {
    if Routed(env, ev, inv).Success? then
      Router.DispatchSuccess(env, inv.awsRequestId, Prepared(env, ev, inv));
      Invoke(env, ev, inv).ctx.response
    else
      Invoke(env, ev, inv).ctx.response
  }

  /** The audit entries emitted during a run: one per `after` call of an audit middleware, as that call saw the context. */
  function EmittedAudits(env: Env, tr: seq<Entry>): seq<AuditRecord>
  {
    if |tr| == 0 then [] else EmittedBy(env, tr[0]) + EmittedAudits(env, tr[1..])
  }

  /** The audit entry a single call emits, if it is an `after` of an audit middleware. */
  function EmittedBy(env: Env, e: Entry): seq<AuditRecord> {
    if e.stage.AfterOf? && e.stage.index < |Registered| && Registered[e.stage.index].AuditLogMw?
    then [AuditLogMiddleware.Emitted(env, e.input)] else []
  }

  /** The context the router sees: fresh audit record stamped with the normalised path and method, normalised request. */
  function Prepared(env: Env, ev: ApiEvent, inv: Invocation): Context {
    var audited := AuditLogMiddleware.Before(env, inv.awsRequestId, Origin, Initial(ev, inv)).ctx;
    RequestMiddleware.Before(env, audited).ctx
  }

  /** The router's outcome on the prepared context. */
  function Routed(env: Env, ev: ApiEvent, inv: Invocation): Result<Context, Error> {
    Router.Dispatch(env, inv.awsRequestId, Prepared(env, ev, inv))
  }

  /** The context left by the dispatch step. */
  function Dispatched(env: Env, ev: ApiEvent, inv: Invocation): Context {
    DispatchSettle(Prepared(env, ev, inv), Routed(env, ev, inv))
  }

  /**
   * None of the registered `before` calls throws or returns an error, so all
   * three are appended and run, in the order Error, AuditLog, Request, and the
   * router is dispatched on the prepared context.
   */
  lemma BeforePhase(env: Env, ev: ApiEvent, inv: Invocation)
    ensures var b := BeforeFrom(Registered, (m, c) => MwBefore(env, inv.awsRequestId, m, c), 0, Initial(ev, inv));
      && b.started == 3
      && b.ctx == Prepared(env, ev, inv)
      && b.trace == [Entry(BeforeOf(0), Initial(ev, inv)), Entry(BeforeOf(1), Initial(ev, inv)),
                     Entry(BeforeOf(2), AuditLogMiddleware.Before(env, inv.awsRequestId, Origin, Initial(ev, inv)).ctx)]
  {
    var before := (m, c) => MwBefore(env, inv.awsRequestId, m, c);
    var h0 := Initial(ev, inv);
    var h1 := AuditLogMiddleware.Before(env, inv.awsRequestId, Origin, h0).ctx;
    var h2 := Prepared(env, ev, inv);
    assert before(Registered[2], h1) == Returned(h2);
    assert h1.error.Null? && h2.error.Null?;
    assert Registered[0] == ErrorMw && Registered[1] == AuditLogMw(Origin) && Registered[2] == RequestMw;
    assert BeforeFrom(Registered, before, 3, h2) == BeforeResult(h2, 3, []);
    var b2 := BeforeFrom(Registered, before, 2, h1);
    assert b2 == BeforeResult(h2, 3, [Entry(BeforeOf(2), h1)]);
    var b1 := BeforeFrom(Registered, before, 1, h0);
    assert before(Registered[1], h0) == Returned(h1);
    assert b1 == BeforeResult(h2, 3, [Entry(BeforeOf(1), h0)] + b2.trace);
    assert before(Registered[0], h0) == NoReturn;
  }

  /** The after phase: Request, then AuditLog, then Error, starting from the dispatched context. */
  lemma AfterPhase(env: Env, ev: ApiEvent, inv: Invocation)
    ensures var d := Dispatched(env, ev, inv);
      var a := AfterFrom(Registered, (m, c) => MwAfter(env, inv.awsRequestId, m, c), 3, d);
      && a.trace == [Entry(AfterOf(2), d), Entry(AfterOf(1), d), Entry(AfterOf(0), d)]
      && a.ctx == ErrorMiddleware.After(inv.awsRequestId, d).ctx
  {
  }

  /**
   * Every invocation runs `before` of Error, AuditLog and Request, then the
   * router, then `after` of Request, AuditLog and Error; the response is the
   * error middleware's verdict on the dispatched context.
   */
  lemma InvocationShape(env: Env, ev: ApiEvent, inv: Invocation)
    ensures var r := Invoke(env, ev, inv);
      && r.started == 3
      && r.dispatched
      && Stages(r.trace) == [BeforeOf(0), BeforeOf(1), BeforeOf(2), DispatchStage, AfterOf(2), AfterOf(1), AfterOf(0)]
      && r.ctx == ErrorMiddleware.After(inv.awsRequestId, Dispatched(env, ev, inv)).ctx
    ensures var h0 := Initial(ev, inv);
      var d := Dispatched(env, ev, inv);
      Invoke(env, ev, inv).trace
        == [Entry(BeforeOf(0), h0), Entry(BeforeOf(1), h0),
            Entry(BeforeOf(2), AuditLogMiddleware.Before(env, inv.awsRequestId, Origin, h0).ctx),
            Entry(DispatchStage, Prepared(env, ev, inv)),
            Entry(AfterOf(2), d), Entry(AfterOf(1), d), Entry(AfterOf(0), d)]
  {
    BeforePhase(env, ev, inv);
    AfterPhase(env, ev, inv);
    var r := Invoke(env, ev, inv);
    assert Stages(r.trace) == [BeforeOf(0), BeforeOf(1), BeforeOf(2), DispatchStage, AfterOf(2), AfterOf(1), AfterOf(0)];
  }

  /**
   * The handler always returns a built response. Its code is 2000 exactly when
   * the router succeeded, and otherwise the classified code of the router's
   * failure; either way the trace id is in its control.
   */
  lemma ResponseCodes(env: Env, ev: ApiEvent, inv: Invocation)
    ensures var resp := Handler(env, ev, inv);
      && resp.Some?
      && resp.value.code in {2000, 5000, 5001, 5002, 3001}
      && (resp.value.code == 2000 <==> Routed(env, ev, inv).Success?)
      && (Routed(env, ev, inv).Failure? ==> resp.value.code == ErrorMiddleware.StatusCode(Routed(env, ev, inv).error))
      && "TraceID" in resp.value.control
      && resp.value.control["TraceID"] == JString(inv.awsRequestId)
  {
    InvocationShape(env, ev, inv);
    if Routed(env, ev, inv).Success? {
      Router.DispatchSuccess(env, inv.awsRequestId, Prepared(env, ev, inv));
    }
  }

  /**
   * A successful route: the response is code 2000 with the method's body as data,
   * and the final audit record is stamped as a success.
   */
  lemma SuccessfulInvocation(env: Env, ev: ApiEvent, inv: Invocation)
    requires Routed(env, ev, inv).Success?
    ensures var p := Prepared(env, ev, inv);
      var request := p.request.value;
      var result := Router.CallMethod(env, Router.Routes[request.path], request, p.auditRecord).value;
      var r := Invoke(env, ev, inv);
      && r.ctx.response == Some(Response(2000, result.body, result.control.GetOr(map[]) + map["TraceID" := JString(inv.awsRequestId)]))
      && r.ctx.auditRecord.status == Some(true)
      && r.ctx.auditRecord.status_code == Some(2000)
  {
    InvocationShape(env, ev, inv);
    Router.DispatchSuccess(env, inv.awsRequestId, Prepared(env, ev, inv));
    Router.DispatchSucceedsIff(env, inv.awsRequestId, Prepared(env, ev, inv));
  }

  /**
   * A failed route: the response carries the classified code and the
   * caller-safe data, and the final audit record is marked failed with the
   * raw message.
   */
  lemma FailedInvocation(env: Env, ev: ApiEvent, inv: Invocation)
    requires Routed(env, ev, inv).Failure?
    ensures var e := Routed(env, ev, inv).error;
      var r := Invoke(env, ev, inv);
      && r.ctx.response == Some(Response(ErrorMiddleware.StatusCode(e), ErrorMiddleware.ResponseData(e),
                                         map["TraceID" := JString(inv.awsRequestId)]))
      && r.ctx.auditRecord.status == Some(false)
      && r.ctx.auditRecord.raise_alarm == Some(true)
      && r.ctx.auditRecord.status_description == Some(e.message)
      && r.ctx.auditRecord.status_code == Some(ErrorMiddleware.StatusCode(e))
      && r.ctx.error == Raised(e)
  {
    InvocationShape(env, ev, inv);
  }

  /**
   * Exactly one audit entry is emitted, by AuditLog's `after`, and it carries
   * the run time. Because that `after` runs before the error middleware's, the
   * entry holds `status_code` 2000 after a successful route and no status code
   * at all after a failed one.
   */
  lemma AuditEmittedOnce(env: Env, ev: ApiEvent, inv: Invocation)
    ensures var audits := EmittedAudits(env, Invoke(env, ev, inv).trace);
      && |audits| == 1
      && audits[0].run_time == Some(env.timeoutSeconds * 1000 - inv.remainingMillis)
      && audits[0].status_code == (if Routed(env, ev, inv).Success? then Some(2000) else None)
      && audits[0].origin == Some(Origin)
      && audits[0].trace_id == Some(inv.awsRequestId)
  {
    var r := Invoke(env, ev, inv);
    InvocationShape(env, ev, inv);
    var tr := r.trace;
    var d := Dispatched(env, ev, inv);
    EmittedAuditsSuffix(env, tr, d, 0);
    assert tr[0..] == tr;
    if Routed(env, ev, inv).Success? {
      Router.DispatchSuccess(env, inv.awsRequestId, Prepared(env, ev, inv));
    }
  }

  /** Helper for `AuditEmittedOnce`: the audit entries emitted by the calls from position `k` of the trace on. */
  lemma {:induction false} EmittedAuditsSuffix(env: Env, tr: seq<Entry>, d: Context, k: nat)
    requires |tr| == 7 && k <= 7
    requires forall n :: 0 <= n < 5 ==> !tr[n].stage.AfterOf? || tr[n].stage.index != 1
    requires tr[5] == Entry(AfterOf(1), d) && tr[6].stage == AfterOf(0)
    ensures EmittedAudits(env, tr[k..]) == (if k <= 5 then [AuditLogMiddleware.Emitted(env, d)] else [])
    decreases 7 - k
  {
    if k < 7 {
      EmittedAuditsSuffix(env, tr, d, k + 1);
      assert tr[k..][1..] == tr[k + 1..];
      assert EmittedBy(env, tr[k]) == (if k == 5 then [AuditLogMiddleware.Emitted(env, d)] else []);
    }
  }
}
