/**
 * `MiddlewareRequest`: its `before` turns the API Gateway event into the
 * normalised request and stamps the path and method on the audit record.
 */
module RequestMiddleware {
  import opened Wrappers
  import opened JsValues
  import opened Types
  import opened Pipeline

  predicate EndsWithSlash(p: string) {
    |p| > 0 && p[|p| - 1] == '/'
  }

  /** Drops one trailing `/`, if there is one. */
  function StripTrailingSlash(p: string): (r: string)
    ensures r <= p && |p| - 1 <= |r|
    ensures !EndsWithSlash(p) ==> r == p
  {
    if EndsWithSlash(p) then p[..|p| - 1] else p
  }

  /**
   * The stripped path is a prefix of the raw path, shorter by exactly one
   * character when the raw path ended in `/` and equal to it otherwise; it
   * still ends in `/` only when the raw path ended in `//`. The root `/`
   * becomes the empty path.
   */
  lemma StripTrailingSlashSpec(p: string)
    ensures var r := StripTrailingSlash(p);
      && r <= p
      && |p| - |r| == (if EndsWithSlash(p) then 1 else 0)
      && (EndsWithSlash(r) <==> |p| >= 2 && p[|p| - 2..] == "//")
    ensures StripTrailingSlash("/") == ""
  {
  }

  /** Normalising is idempotent on every path that does not end in `//`. */
  lemma StripTrailingSlashIdempotent(p: string)
    requires !(|p| >= 2 && p[|p| - 2..] == "//")
    ensures StripTrailingSlash(StripTrailingSlash(p)) == StripTrailingSlash(p)
  {
  }

  /** `try { JSON.parse(body) } catch { null }`; a missing body parses as `null`. */
  function ParseBody(env: Env, raw: Option<string>): (r: Json)
    ensures raw.None? ==> r == JNull
    ensures raw.Some? && env.parseJson(raw.value).Some? ==> r == env.parseJson(raw.value).value
    ensures raw.Some? && env.parseJson(raw.value).None? ==> r == JNull
  {
    match raw
    case None => JNull
    case Some(s) => env.parseJson(s).GetOr(JNull)
  }

  /** The request the middleware builds from the event. */
  function Normalise(env: Env, ev: ApiEvent): Request {
    Request(ev.httpMethod, StripTrailingSlash(ev.path), ev.queryString, ParseBody(env, ev.body), ev.authorization)
  }

  /**
   * `before` never throws, even on an unparseable body. It replaces the request
   * with the normalised one, whose method, query string and authorization are
   * copied from the event, and records the normalised path as `origin_path`
   * and the method as `meta` on the audit record; `event`, `invocation`,
   * `response` and `error` pass through unchanged.
   */
  function Before(env: Env, c: Context): (o: Outcome)
    ensures o.Returned?
    ensures o.ctx.event == c.event && o.ctx.invocation == c.invocation
    ensures o.ctx.response == c.response && o.ctx.error == c.error
    ensures o.ctx.request.Some?
    ensures var q := o.ctx.request.value;
      && q.httpMethod == c.event.httpMethod
      && q.queryString == c.event.queryString
      && q.authorization == c.event.authorization
      && q.body == ParseBody(env, c.event.body)
      && q.path <= c.event.path
      && |c.event.path| - |q.path| == (if EndsWithSlash(c.event.path) then 1 else 0)
    ensures o.ctx.auditRecord.origin_path == Some(o.ctx.request.value.path)
    ensures o.ctx.auditRecord.meta == Some(c.event.httpMethod)
    ensures o.ctx.auditRecord.(origin_path := c.auditRecord.origin_path, meta := c.auditRecord.meta) == c.auditRecord
  {
    var request := Normalise(env, c.event);
    StripTrailingSlashSpec(c.event.path);
    var audit := c.auditRecord.(origin_path := Some(request.path), meta := Some(request.httpMethod));
    Returned(c.(request := Some(request), auditRecord := audit))
  }

  /** `after` logs and returns nothing: the engine keeps its context. */
  function After(c: Context): (o: Outcome)
    ensures !o.Threw? && AfterSettle(c, o) == c
  {
    NoReturn
  }
}
