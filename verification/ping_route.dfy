/** The `/v1/ping` route: a single `GET` that answers `"pong"`. */
module PingRoute {
  import opened Wrappers
  import opened JsValues
  import opened Types

  const Pong: string := "pong"

  /** `PingPong.GET`: ignores the request and the audit record and returns the body `"pong"`. */
  function Get(request: Request, auditRecord: AuditRecord): (r: Result<MethodResult, Error>)
    ensures r.Success? && r.value.body == JString(Pong)
    ensures r.value.control.None? && r.value.auditRecord.None?
  {
    Success(MethodReturn(JString(Pong)))
  }

  /** The answer does not depend on the request or the audit record. */
  lemma GetIgnoresArguments(request: Request, auditRecord: AuditRecord, request': Request, auditRecord': AuditRecord)
    ensures Get(request, auditRecord) == Get(request', auditRecord')
  {
  }
}
