/**
 * `MiddlewareAuditLog`: its `before` installs a fresh audit record, its
 * `after` computes the run time and emits the record once.
 */
module AuditLogMiddleware {
  import opened Wrappers
  import opened Types
  import opened Pipeline

  /** The record type the middleware stamps on every fresh record. */
  const ApiKind: string := "api"

  /** The record `new audit_log(...)` builds: identity, origin, start time and build stamps; everything else null. */
  function FreshRecord(env: Env, traceId: string, origin: string): AuditRecord {
    AuditRecord(
      id := Some(env.auditId), trace_id := Some(traceId), kind := Some(ApiKind), origin := Some(origin),
      origin_path := None, meta := None, start_time := Some(env.auditStart), run_time := None,
      status := None, status_code := None, status_description := None, raise_alarm := None,
      environment := Some(env.environment), version := Some(env.version), build := Some(env.build))
  }

  /**
   * `before` replaces only the audit record, with a fresh one that carries the
   * new id, the trace id, the origin, the start time and the ENVIRONMENT,
   * VERSION and BUILD stamps, and whose outcome fields are all unset.
   */
  function Before(env: Env, traceId: string, origin: string, c: Context): (o: Outcome)
    ensures o.Returned?
    ensures o.ctx.(auditRecord := c.auditRecord) == c
    ensures var a := o.ctx.auditRecord;
      && a.id == Some(env.auditId) && a.trace_id == Some(traceId) && a.kind == Some(ApiKind) && a.origin == Some(origin)
      && a.start_time == Some(env.auditStart)
      && a.environment == Some(env.environment) && a.version == Some(env.version) && a.build == Some(env.build)
      && a.status.None? && a.status_code.None? && a.status_description.None? && a.raise_alarm.None?
      && a.run_time.None? && a.origin_path.None? && a.meta.None?
  {
    Returned(c.(auditRecord := FreshRecord(env, traceId, origin)))
  }

  /** `TIMEOUT * 1000 - context.getRemainingTimeInMillis()`. */
  function RunTime(env: Env, c: Context): int {
    env.timeoutSeconds * 1000 - c.invocation.remainingMillis
  }

  /**
   * The entry `after` emits: the record as the middleware sees it, with the
   * run time filled in and every other field, `status` and `status_code`
   * included, left as it was.
   */
  function Emitted(env: Env, c: Context): (a: AuditRecord)
    ensures a.run_time == Some(RunTime(env, c))
    ensures a.(run_time := c.auditRecord.run_time) == c.auditRecord
  {
    c.auditRecord.(run_time := Some(RunTime(env, c)))
  }

  /**
   * `after` emits the entry (see `Emitted`) and returns nothing, so the engine
   * keeps its context.
   */
  function After(c: Context): (o: Outcome)
    ensures !o.Threw? && AfterSettle(c, o) == c
  {
    NoReturn
  }

  /**
   * When the remaining-time clock counts down from a timeout of
   * `contextTimeout` seconds, the run time is the elapsed time, shifted by the
   * difference between the configured TIMEOUT and that timeout; with equal
   * timeouts it is exactly the elapsed time.
   */
  lemma RunTimeIsElapsed(env: Env, c: Context, contextTimeout: int, elapsed: int)
    requires c.invocation.remainingMillis == contextTimeout * 1000 - elapsed
    ensures Emitted(env, c).run_time == Some(elapsed + (env.timeoutSeconds - contextTimeout) * 1000)
    ensures env.timeoutSeconds == contextTimeout ==> Emitted(env, c).run_time == Some(elapsed)
  {
  }
}
