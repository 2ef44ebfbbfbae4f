/**
 * `MiddlewareError`: registered first, so its `before` opens the chain and its
 * `after` closes it. The `after` turns a pending error into a classified,
 * caller-safe response and marks the audit record as failed.
 */
module ErrorMiddleware {
  import opened Wrappers
  import opened JsValues
  import opened Types
  import opened Pipeline

  /** Shown instead of the raw message for failures of no known kind. */
  const UnexpectedMessage: string := "Unexpected Error Occurred"

  /** The status code of a failure, by kind: handled, validation, auth, anything else. */
  function StatusCode(e: Error): (code: int)
    ensures code in {5001, 5002, 3001, 5000}
    ensures code == 5001 <==> e.HandledError?
    ensures code == 5002 <==> e.ValidationError?
    ensures code == 3001 <==> e.AuthError?
    ensures code == 5000 <==> e.Unclassified?
  {
    if e.HandledError? then 5001
    else if e.ValidationError? then 5002
    else if e.AuthError? then 3001
    else 5000
  }

  /** What the caller is shown: the raw message for the three known kinds, a fixed text otherwise. */
  function ResponseData(e: Error): Json {
    if e.Unclassified? then JString(UnexpectedMessage) else JString(e.message)
  }

  predicate SameKind(e: Error, e': Error) {
    match (e, e')
    case (HandledError(_), HandledError(_)) => true
    case (ValidationError(_), ValidationError(_)) => true
    case (AuthError(_), AuthError(_)) => true
    case (Unclassified(_), Unclassified(_)) => true
    case _ => false
  }

  /** Two failures get the same status code exactly when they are of the same kind; no failure gets the success code. */
  lemma StatusCodeDistinguishesKinds(e: Error, e': Error)
    ensures StatusCode(e) == StatusCode(e') <==> SameKind(e, e')
    ensures StatusCode(e) != 2000
  {
  }

  /**
   * The raw message reaches the caller exactly for the three known kinds; for
   * an unclassified failure the response data does not depend on the message.
   */
  lemma ResponseDataHidesUnclassified(e: Error, e': Error)
    ensures !e.Unclassified? ==> ResponseData(e) == JString(e.message)
    ensures e.Unclassified? && e'.Unclassified? ==> ResponseData(e) == ResponseData(e')
    ensures e.Unclassified? ==> ResponseData(e) == JString(UnexpectedMessage)
  {
  }

  /** `before` logs and returns nothing; it cannot throw, so the before-loop goes on with its context. */
  function Before(c: Context): (o: Outcome)
    ensures !Halts(o) && BeforeSettle(c, o) == c
  {
    NoReturn
  }

  /**
   * `after`: with no error (`null` or `undefined`) the context comes back as it
   * was; with an error the audit record is marked failed and carries the raw
   * message and the status code, and the response carries the same code, the
   * caller-safe data and the trace id. `event`, `invocation`, `request` and
   * `error` come back unchanged in every case.
   */
  function After(traceId: string, c: Context): (o: Outcome)
    ensures o.Returned?
    ensures o.ctx.event == c.event && o.ctx.invocation == c.invocation
    ensures o.ctx.request == c.request && o.ctx.error == c.error
    ensures !c.error.Raised? ==> o.ctx == c
    ensures c.error.Raised? ==>
      var e := c.error.err;
      var a := o.ctx.auditRecord;
      && a.status == Some(false)
      && a.raise_alarm == Some(true)
      && a.status_description == Some(e.message)
      && a.status_code == Some(StatusCode(e))
      && a.(status := c.auditRecord.status, raise_alarm := c.auditRecord.raise_alarm,
            status_description := c.auditRecord.status_description,
            status_code := c.auditRecord.status_code) == c.auditRecord
      && o.ctx.response.Some?
      && o.ctx.response.value.code == StatusCode(e)
      && o.ctx.response.value.data == ResponseData(e)
      && o.ctx.response.value.control == map["TraceID" := JString(traceId)]
  {
    match c.error
    case Raised(e) =>
      var code := StatusCode(e);
      var audit := c.auditRecord.(status := Some(false), raise_alarm := Some(true),
                                  status_description := Some(e.message), status_code := Some(code));
      var response := Response(code, ResponseData(e), map["TraceID" := JString(traceId)]);
      Returned(c.(response := Some(response), auditRecord := audit))
    case _ => Returned(c)
  }
}
