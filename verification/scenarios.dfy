/** End-to-end behaviour of the handler on the request shapes the end-to-end tests exercise. */
module Scenarios {
  import opened Wrappers
  import opened JsValues
  import opened Types
  import ErrorMiddleware
  import RequestMiddleware
  import Router
  import PersonRoute
  import opened App

  /** `GET /v1/ping` answers code 2000 with data `"pong"`. */
  lemma PingAnswersPong(env: Env, ev: ApiEvent, inv: Invocation)
    requires ev.httpMethod == "GET" && ev.path == "/v1/ping"
    ensures Handler(env, ev, inv).Some?
    ensures Handler(env, ev, inv).value.code == 2000
    ensures Handler(env, ev, inv).value.data == JString("pong")
  {
    InvocationShape(env, ev, inv);
    SuccessfulInvocation(env, ev, inv);
  }

  /** Any verb other than `GET` on `/v1/ping` fails in the router and ends as the generic 5000 response. */
  lemma PingOtherVerbIsUnexpected(env: Env, ev: ApiEvent, inv: Invocation)
    requires ev.httpMethod != "GET" && ev.path == "/v1/ping"
    ensures Handler(env, ev, inv) == Some(Response(5000, JString(ErrorMiddleware.UnexpectedMessage),
                                                   map["TraceID" := JString(inv.awsRequestId)]))
  {
    FailedInvocation(env, ev, inv);
  }

  /** A path that names no route ends as the generic 5000 response; the root `/` is such a path. */
  lemma UnknownPathIsUnexpected(env: Env, ev: ApiEvent, inv: Invocation)
    requires RequestMiddleware.StripTrailingSlash(ev.path) !in Router.Routes
    ensures Handler(env, ev, inv) == Some(Response(5000, JString(ErrorMiddleware.UnexpectedMessage),
                                                   map["TraceID" := JString(inv.awsRequestId)]))
  {
    FailedInvocation(env, ev, inv);
  }

  /**
   * One trailing slash makes no difference to the response: the path with the
   * slash resolves to the same route as the path without it.
   */
  lemma TrailingSlashSameResponse(env: Env, ev: ApiEvent, p: string, inv: Invocation)
    requires !RequestMiddleware.EndsWithSlash(p)
    requires ev.path == p + "/"
    ensures Handler(env, ev, inv) == Handler(env, ev.(path := p), inv)
  {
    var ev' := ev.(path := p);
    assert RequestMiddleware.StripTrailingSlash(ev.path) == p;
    var c := Prepared(env, ev, inv);
    var c' := Prepared(env, ev', inv);
    assert c' == c.(event := ev');
    InvocationShape(env, ev, inv);
    InvocationShape(env, ev', inv);
    RoutedIgnoresEvent(env, inv.awsRequestId, c, ev');
  }

  /** The router's verdict does not depend on the raw event, only on the normalised request and the audit record. */
  lemma RoutedIgnoresEvent(env: Env, traceId: string, c: Context, ev': ApiEvent)
    ensures var d := Router.Dispatch(env, traceId, c);
      var d' := Router.Dispatch(env, traceId, c.(event := ev'));
      && d.Success? == d'.Success?
      && (d.Success? ==> d'.value == d.value.(event := ev'))
      && (d.Failure? ==> d'.error == d.error)
  {
  }

  /** A body for `POST /v1/person`. */
  function PersonBody(clientId: string, name: Option<string>, email: string): Json {
    var fields := map["client_id" := JString(clientId), "email" := JString(email)];
    JObject(if name.Some? then fields["name" := JString(name.value)] else fields)
  }

  /** A valid person is stored and returned with code 2000, its fresh id, and the fields of the body. */
  lemma CreatePerson(env: Env, ev: ApiEvent, inv: Invocation, raw: string)
    requires ev.httpMethod == "POST" && ev.path == "/v1/person" && ev.body == Some(raw)
    requires env.parseJson(raw) == Some(PersonBody("f2710c82-4d7b-442d-91fd-cde5c8dd4c94", Some("Rehan"), "rehan123456@gmail.com"))
    requires env.put(Person(env.personId, JString("f2710c82-4d7b-442d-91fd-cde5c8dd4c94"), JString("Rehan"),
                            JString("rehan123456@gmail.com"), env.personCreatedAt)).None?
    ensures var resp := Handler(env, ev, inv);
      && resp.Some? && resp.value.code == 2000
      && resp.value.data == PersonRoute.PersonJson(Person(env.personId, JString("f2710c82-4d7b-442d-91fd-cde5c8dd4c94"),
                                                          JString("Rehan"), JString("rehan123456@gmail.com"),
                                                          env.personCreatedAt))
  {
    PersonRoute.NameBoundary("Rehan");
    PersonRoute.PostOutcome(env, Prepared(env, ev, inv).request.value);
    SuccessfulInvocation(env, ev, inv);
  }

  /** A body without a name is a validation failure: code 5002 and the name message. */
  lemma CreatePersonWithoutName(env: Env, ev: ApiEvent, inv: Invocation, raw: string, clientId: string, email: string)
    requires ev.httpMethod == "POST" && ev.path == "/v1/person" && ev.body == Some(raw)
    requires clientId != ""
    requires env.parseJson(raw) == Some(PersonBody(clientId, None, email))
    ensures Handler(env, ev, inv) == Some(Response(5002, JString(PersonRoute.NameMessage),
                                                   map["TraceID" := JString(inv.awsRequestId)]))
  {
    PersonRoute.PostOutcome(env, Prepared(env, ev, inv).request.value);
    FailedInvocation(env, ev, inv);
  }

  /** A body that does not parse becomes `null`, and reading a field of it ends as the generic 5000 response. */
  lemma CreatePersonUnparseableBody(env: Env, ev: ApiEvent, inv: Invocation, raw: string)
    requires ev.httpMethod == "POST" && ev.path == "/v1/person" && ev.body == Some(raw)
    requires env.parseJson(raw).None?
    ensures Handler(env, ev, inv) == Some(Response(5000, JString(ErrorMiddleware.UnexpectedMessage),
                                                   map["TraceID" := JString(inv.awsRequestId)]))
  {
    FailedInvocation(env, ev, inv);
  }

  /**
   * A storage failure of no known kind while creating a valid person ends as
   * the generic 5000 response; the storage message stays out of it.
   */
  lemma CreatePersonStorageFailure(env: Env, ev: ApiEvent, inv: Invocation, raw: string, clientId: string,
                                   name: string, email: string, msg: string)
    requires ev.httpMethod == "POST" && ev.path == "/v1/person" && ev.body == Some(raw)
    requires clientId != "" && 0 < |name| <= 50 && email != ""
    requires forall i :: 0 <= i < |name| ==> name[i] as int <= 0xFFFF
    requires env.parseJson(raw) == Some(PersonBody(clientId, Some(name), email))
    requires env.put(Person(env.personId, JString(clientId), JString(name), JString(email), env.personCreatedAt)) == Some(Unclassified(msg))
    ensures Handler(env, ev, inv) == Some(Response(5000, JString(ErrorMiddleware.UnexpectedMessage),
                                                   map["TraceID" := JString(inv.awsRequestId)]))
  {
    PersonRoute.NameBoundary(name);
    var request := Prepared(env, ev, inv).request.value;
    assert PersonRoute.Post(env, request) == Failure(Unclassified(msg)) by {
      PersonRoute.PostOutcome(env, request);
    }
    assert Routed(env, ev, inv) == Failure(Unclassified(msg));
    FailedInvocation(env, ev, inv);
  }

  /** `GET /v1/person` with a query string but no `limit` is a validation failure with the limit message. */
  lemma ListPersonsWithoutLimit(env: Env, ev: ApiEvent, inv: Invocation, q: map<string, string>)
    requires ev.httpMethod == "GET" && ev.path == "/v1/person" && ev.queryString == Some(q)
    requires "limit" !in q
    ensures Handler(env, ev, inv) == Some(Response(5002, JString(PersonRoute.LimitMessage),
                                                   map["TraceID" := JString(inv.awsRequestId)]))
  {
    FailedInvocation(env, ev, inv);
  }

  /**
   * `GET /v1/person` with no query string object at all reads `limit` off
   * `null`; the `TypeError` ends as the generic 5000 response, not as the
   * limit message.
   */
  lemma ListPersonsWithoutQueryString(env: Env, ev: ApiEvent, inv: Invocation)
    requires ev.httpMethod == "GET" && ev.path == "/v1/person" && ev.queryString.None?
    ensures Handler(env, ev, inv) == Some(Response(5000, JString(ErrorMiddleware.UnexpectedMessage),
                                                   map["TraceID" := JString(inv.awsRequestId)]))
  {
    FailedInvocation(env, ev, inv);
  }

  /** `GET /v1/person?limit=100` returns, with code 2000, the data `FindFirst` found. */
  lemma ListFirstHundred(env: Env, ev: ApiEvent, inv: Invocation, data: Json)
    requires ev.httpMethod == "GET" && ev.path == "/v1/person" && ev.queryString == Some(map["limit" := "100"])
    requires env.toNumber("100") == Some(100.0)
    requires env.findFirst("100") == Success(data)
    ensures Handler(env, ev, inv).Some?
    ensures Handler(env, ev, inv).value.code == 2000
    ensures Handler(env, ev, inv).value.data == data
  {
    SuccessfulInvocation(env, ev, inv);
  }
}
