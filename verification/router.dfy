/**
 * The router of the Lambda handler: the request path selects the route, the
 * HTTP verb selects the method, and a successful result is stamped as a
 * success and wrapped into the response.
 */
module Router {
  import opened Wrappers
  import opened JsValues
  import opened Types
  import PersonRoute
  import PingRoute

  datatype Route = PersonApi | PingApi

  /** The routes that exist: one per route directory. */
  const Routes: map<string, Route> := map["/v1/person" := PersonApi, "/v1/ping" := PingApi]

  const SuccessCode: int := 2000

  /**
   * Node's failure of loading a route that does not exist: the module path as
   * written in the `require` call, followed by the require stack, whose file
   * names depend on the deployment.
   */
  function ModuleNotFound(env: Env, path: string): Error {
    Unclassified("Cannot find module '." + path + "/index.js'\nRequire stack:\n" + env.requireStack)
  }

  /**
   * The `TypeError` of calling a verb the route class has no method for; the
   * message quotes the call expression, not the verb.
   */
  const NotAFunction: Error := Unclassified("apiClass[request.HttpMethod] is not a function")

  /** Whether a route defines a method for a verb. */
  predicate HasMethod(route: Route, verb: string) {
    match route
    case PersonApi => verb == "POST" || verb == "GET"
    case PingApi => verb == "GET"
  }

  /** `apiClass[request.HttpMethod](request, auditRecord)`. */
  function CallMethod(env: Env, route: Route, request: Request, auditRecord: AuditRecord): (r: Result<MethodResult, Error>)
    ensures !HasMethod(route, request.httpMethod) ==> r == Failure(NotAFunction)
  {
    match route
    case PersonApi =>
      if request.httpMethod == "POST" then PersonRoute.Post(env, request)
      else if request.httpMethod == "GET" then PersonRoute.Get(env, request)
      else Failure(NotAFunction)
    case PingApi =>
      if request.httpMethod == "GET" then PingRoute.Get(request, auditRecord)
      else Failure(NotAFunction)
  }

  /** The context `router` returns once the route method has produced `result`. */
  function Stamp(traceId: string, c: Context, result: MethodResult): Context {
    var control := result.control.GetOr(map[]) + map["TraceID" := JString(traceId)];
    var audit := result.auditRecord.GetOr(c.auditRecord);
    Context(c.event, c.invocation, c.request,
            Some(Response(SuccessCode, result.body, control)),
            audit.(status := Some(true), status_code := Some(SuccessCode)),
            Absent)
  }

  /** `router`: resolve the route by path, call the method named by the verb, stamp the success. */
  /**
   * A context without a request (the initial `{}`) reads `Path` as `undefined`,
   * so `require` is asked for `.undefined/index.js` and fails. A successful
   * dispatch leaves a context with a 2000 response and no `error` field.
   */
  function Dispatch(env: Env, traceId: string, c: Context): (r: Result<Context, Error>)
    ensures c.request.None? ==> r == Failure(ModuleNotFound(env, "undefined"))
    ensures c.request.Some? && c.request.value.path !in Routes ==> r == Failure(ModuleNotFound(env, c.request.value.path))
    ensures r.Success? ==>
      && c.request.Some? && c.request.value.path in Routes
      && HasMethod(Routes[c.request.value.path], c.request.value.httpMethod)
      && r.value.error == Absent
      && r.value.response.Some? && r.value.response.value.code == SuccessCode
      && r.value.auditRecord.status == Some(true)
  {
    match c.request
    case None => Failure(ModuleNotFound(env, "undefined"))
    case Some(request) =>
      if request.path !in Routes then Failure(ModuleNotFound(env, request.path))
      else
        match CallMethod(env, Routes[request.path], request, c.auditRecord)
        case Failure(e) => Failure(e)
        case Success(result) => Success(Stamp(traceId, c, result))
  }

  /**
   * The router succeeds exactly when the request names an existing route, the
   * route has a method for the verb, and that method succeeds; an unknown path
   * or verb is an unclassified failure, and a failure of the method is passed
   * on as it is.
   */
  lemma DispatchSucceedsIff(env: Env, traceId: string, c: Context)
    ensures Dispatch(env, traceId, c).Success? <==>
      && c.request.Some?
      && c.request.value.path in Routes
      && HasMethod(Routes[c.request.value.path], c.request.value.httpMethod)
      && CallMethod(env, Routes[c.request.value.path], c.request.value, c.auditRecord).Success?
    ensures c.request.Some? && c.request.value.path in Routes ==>
      var m := CallMethod(env, Routes[c.request.value.path], c.request.value, c.auditRecord);
      m.Failure? ==> Dispatch(env, traceId, c) == Failure(m.error)
    ensures c.request.None? || c.request.value.path !in Routes
            || !HasMethod(Routes[c.request.value.path], c.request.value.httpMethod) ==>
      Dispatch(env, traceId, c).Failure? && Dispatch(env, traceId, c).error.Unclassified?
  {
  }

  /**
   * A successful dispatch stamps `status = true` and `status_code = 2000`, and
   * its response carries code 2000, the method's body as data, and the
   * method's control with the trace id added over any value the method set.
   * A method-supplied audit record replaces the current one. The returned
   * context has no `error` field; `event`, `invocation` and `request` pass
   * through.
   */
  lemma DispatchSuccess(env: Env, traceId: string, c: Context)
    requires Dispatch(env, traceId, c).Success?
    ensures var d := Dispatch(env, traceId, c).value;
      var request := c.request.value;
      var result := CallMethod(env, Routes[request.path], request, c.auditRecord).value;
      && d.event == c.event && d.invocation == c.invocation && d.request == c.request
      && d.error == Absent
      && d.response.Some?
      && d.response.value.code == SuccessCode
      && d.response.value.data == result.body
      && d.response.value.control["TraceID"] == JString(traceId)
      && (forall k :: k in d.response.value.control && k != "TraceID" ==>
            result.control.Some? && k in result.control.value && d.response.value.control[k] == result.control.value[k])
      && (result.control.Some? ==> forall k :: k in result.control.value ==> k in d.response.value.control)
      && d.auditRecord.status == Some(true) && d.auditRecord.status_code == Some(SuccessCode)
      && d.auditRecord.(status := None, status_code := None)
         == result.auditRecord.GetOr(c.auditRecord).(status := None, status_code := None)
  {
  }
}
