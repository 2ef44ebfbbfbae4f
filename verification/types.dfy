/**
 * The records threaded through one invocation of the Lambda handler:
 * the handler context `{event, context, request, response, auditRecord, error}`
 * and the values it holds.
 */
module Types {
  import opened Wrappers
  import opened JsValues

  /** The failure kinds of `lambda_errors`; anything else that can be thrown is `Unclassified`. */
  datatype Error =
    | HandledError(message: string)
    | ValidationError(message: string)
    | AuthError(message: string)
    | Unclassified(message: string)

  /**
   * The context's `error` slot. `Null` is the literal `null` the handler starts
   * with; `Absent` is a context object that has no `error` field at all (what the
   * router returns on success), which reads as `undefined`.
   */
  datatype ErrorSlot = Null | Absent | Raised(err: Error)

  /** The API Gateway proxy event, reduced to the fields the request normaliser copies out of it. */
  datatype ApiEvent = ApiEvent(
    httpMethod: string,
    path: string,
    queryString: Option<map<string, string>>,
    body: Option<string>,
    authorization: Option<string>)

  /** The Lambda invocation context: the request id and the remaining-time clock as read by the audit middleware. */
  datatype Invocation = Invocation(awsRequestId: string, remainingMillis: int)

  /** The normalised request: `HttpMethod`, `Path`, `QueryString`, the parsed `Body` and `Authorization`. */
  datatype Request = Request(
    httpMethod: string,
    path: string,
    queryString: Option<map<string, string>>,
    body: Json,
    authorization: Option<string>)

  /** What `LambdaResponse.API_GATEWAY(code, data, control)` wraps into the API Gateway envelope. */
  datatype Response = Response(code: int, data: Json, control: map<string, Json>)

  /** The audit record; `None` marks a field that is `null` or not yet set. */
  datatype AuditRecord = AuditRecord(
    id: Option<string>,
    trace_id: Option<string>,
    kind: Option<string>,
    origin: Option<string>,
    origin_path: Option<string>,
    meta: Option<string>,
    start_time: Option<string>,
    run_time: Option<int>,
    status: Option<bool>,
    status_code: Option<int>,
    status_description: Option<string>,
    raise_alarm: Option<bool>,
    environment: Option<string>,
    version: Option<string>,
    build: Option<string>)

  /** The `{}` the handler starts with. */
  const EmptyAudit: AuditRecord :=
    AuditRecord(None, None, None, None, None, None, None, None, None, None, None, None, None, None, None)

  /** The handler context. `request` and `response` are `None` while they are still the initial `{}`. */
  datatype Context = Context(
    event: ApiEvent,
    invocation: Invocation,
    request: Option<Request>,
    response: Option<Response>,
    auditRecord: AuditRecord,
    error: ErrorSlot)

  /** The person entity stored by `POST /v1/person`. */
  datatype Person = Person(person_id: string, client_id: Json, name: Json, email: Json, created_at: string)

  /** What a route method hands back to the router: `{body, control?, auditRecord?}`. */
  datatype MethodResult = MethodResult(body: Json, control: Option<map<string, Json>>, auditRecord: Option<AuditRecord>)

  /** `MethodReturn(body)` of the route base class: a result that carries the body and nothing else. */
  function MethodReturn(body: Json): MethodResult {
    MethodResult(body, None, None)
  }

  /**
   * Everything an invocation reads from outside the code shown: `process.env`,
   * fresh identifiers and clock readings, `JSON.parse`, JavaScript's `Number()`
   * coercion, the two storage calls of the person table, and the require stack
   * Node lists when a route module is missing.
   */
  datatype Env = Env(
    environment: string,
    version: string,
    build: string,
    timeoutSeconds: int,
    auditId: string,
    auditStart: string,
    personId: string,
    personCreatedAt: string,
    parseJson: string -> Option<Json>,
    toNumber: string -> Option<real>,
    put: Person -> Option<Error>,
    findFirst: string -> Result<Json, Error>,
    requireStack: string)
}
