/**
 * The `/v1/person` route: `POST` validates and stores a new person, `GET`
 * validates the `limit` query parameter and returns the first persons.
 */
module PersonRoute {
  import opened Wrappers
  import opened JsValues
  import opened Types

  const ClientIdMessage: string := "Field: client_id is required"
  const NameMessage: string := "Field: name is required and can not be longer than 50 characters"
  const EmailMessage: string := "Field: email is required and can not be longer than 1024 characters"
  const LimitMessage: string := "Field: limit is required and can not be more than 100"

  /** The TypeError the Node.js 12 runtime raises on reading a property of a `null` body. */
  const NullBodyMessage: string := "Cannot read property 'client_id' of null"
  /** The TypeError the Node.js 12 runtime raises on reading `limit` when there is no query string object. */
  const NullQueryMessage: string := "Cannot read property 'limit' of null"

  const MaxNameLength: int := 50
  const MaxLimit: real := 100.0

  /** The name check: missing, falsy, or longer than 50 UTF-16 code units. */
  predicate NameRejected(name: Option<Json>) {
    !Truthy(name) || LengthExceeds(name.value, MaxNameLength)
  }

  /**
   * The email length clause as written, `!email.length > 1024`: the negation
   * binds first, so a boolean (read as 0 or 1) is compared with 1024.
   */
  predicate EmailLengthClause(email: Json) {
    var notLength := match JsLength(email) case Some(n) => n == 0 case None => true;
    (if notLength then 1 else 0) > 1024
  }

  /** The email length clause can never hold, so only a missing or falsy email is rejected. */
  lemma EmailLengthClauseIsDead(email: Json)
    ensures !EmailLengthClause(email)
  {
  }

  /** The person record as it is stored and returned. */
  function PersonJson(p: Person): Json {
    JObject(map["person_id" := JString(p.person_id), "client_id" := p.client_id, "name" := p.name,
                "email" := p.email, "created_at" := JString(p.created_at)])
  }

  /**
   * `Person.POST`: a `null` body is a TypeError; a success stores and returns
   * the new person under the fresh id, with no control or audit override.
   */
  function Post(env: Env, request: Request): (r: Result<MethodResult, Error>)
    ensures request.body.JNull? ==> r == Failure(Unclassified(NullBodyMessage))
    ensures r.Success? ==>
      && r.value.control.None? && r.value.auditRecord.None?
      && r.value.body.JObject? && "person_id" in r.value.body.fields
      && r.value.body.fields["person_id"] == JString(env.personId)
      && Truthy(Prop(request.body, "client_id")) && Truthy(Prop(request.body, "email"))
      && !NameRejected(Prop(request.body, "name"))
  {
    if request.body.JNull? then Failure(Unclassified(NullBodyMessage))
    else
      var clientId := Prop(request.body, "client_id");
      var name := Prop(request.body, "name");
      var email := Prop(request.body, "email");
      if !Truthy(clientId) then Failure(ValidationError(ClientIdMessage))
      else if NameRejected(name) then Failure(ValidationError(NameMessage))
      else if !Truthy(email) || EmailLengthClause(email.value) then Failure(ValidationError(EmailMessage))
      else
        var person := Person(env.personId, clientId.value, name.value, email.value, env.personCreatedAt);
        match env.put(person)
        case Some(e) => Failure(e)
        case None => Success(MethodReturn(PersonJson(person)))
  }

  /** The message of the first failing field check of a non-null body, in the order client_id, name, email. */
  function FirstFieldFailure(body: Json): Option<string>
    requires !body.JNull?
  {
    if !Truthy(Prop(body, "client_id")) then Some(ClientIdMessage)
    else if NameRejected(Prop(body, "name")) then Some(NameMessage)
    else if !Truthy(Prop(body, "email")) then Some(EmailMessage)
    else None
  }

  /**
   * `POST` outcomes: a `null` body (an unparseable one included) fails with an
   * unclassified error; otherwise a validation error is raised exactly when a
   * field check fails, with the message of the first failing check; when all
   * checks pass the person built from the body, the fresh id and the creation
   * time is stored, and it is returned unless storing it fails.
   */
  lemma PostOutcome(env: Env, request: Request)
    ensures request.body.JNull? ==> Post(env, request).Failure? && Post(env, request).error.Unclassified?
    ensures !request.body.JNull? ==>
      var r := Post(env, request);
      var f := FirstFieldFailure(request.body);
      && (f.Some? ==> r == Failure(ValidationError(f.value)))
      && (f.None? ==>
            var p := Person(env.personId, Prop(request.body, "client_id").value, Prop(request.body, "name").value,
                            Prop(request.body, "email").value, env.personCreatedAt);
            && (env.put(p).None? ==> r == Success(MethodReturn(PersonJson(p))))
            && (env.put(p).Some? ==> r == Failure(env.put(p).value)))
  {
  }

  /**
   * A name of at most 50 characters from the Basic Multilingual Plane passes
   * the name check; a string of more than 50 characters never does.
   */
  lemma NameBoundary(s: string)
    ensures |s| > MaxNameLength ==> NameRejected(Some(JString(s)))
    ensures (forall i :: 0 <= i < |s| ==> s[i] as int <= 0xFFFF) && 0 < |s| <= MaxNameLength ==> !NameRejected(Some(JString(s)))
  {
    Utf16LengthBounds(s);
    if forall i :: 0 <= i < |s| ==> s[i] as int <= 0xFFFF {
      Utf16LengthOfBmp(s);
    }
  }

  /** JavaScript's `!limit || limit > 100` on the query parameter; a non-numeric limit compares as `NaN`. */
  predicate LimitRejected(env: Env, limit: Option<string>) {
    limit.None? || limit.value == "" || (env.toNumber(limit.value).Some? && env.toNumber(limit.value).value > MaxLimit)
  }

  /**
   * A non-empty limit is rejected exactly when it reads as a number above 100;
   * one that does not read as a number compares as `NaN` and passes, and so
   * does `"0"`, which is a truthy string.
   */
  lemma LimitBoundary(env: Env, s: string)
    ensures s != "" && env.toNumber(s).Some? ==> (LimitRejected(env, Some(s)) <==> env.toNumber(s).value > MaxLimit)
    ensures s != "" && env.toNumber(s).None? ==> !LimitRejected(env, Some(s))
    ensures LimitRejected(env, None) && LimitRejected(env, Some(""))
  {
  }

  /**
   * `Person.GET`: no query string object is a TypeError; a success returns the
   * data `FindFirst` found for the limit as given, with no control or audit
   * override.
   */
  function Get(env: Env, request: Request): (r: Result<MethodResult, Error>)
    ensures request.queryString.None? ==> r == Failure(Unclassified(NullQueryMessage))
    ensures r.Success? ==>
      && request.queryString.Some? && "limit" in request.queryString.value
      && !LimitRejected(env, Some(request.queryString.value["limit"]))
      && env.findFirst(request.queryString.value["limit"]) == Success(r.value.body)
      && r.value.control.None? && r.value.auditRecord.None?
  {
    match request.queryString
    case None => Failure(Unclassified(NullQueryMessage))
    case Some(q) =>
      var limit := if "limit" in q then Some(q["limit"]) else None;
      if LimitRejected(env, limit) then Failure(ValidationError(LimitMessage))
      else
        match env.findFirst(limit.value)
        case Failure(e) => Failure(e)
        case Success(data) => Success(MethodReturn(data))
  }

  /**
   * `GET` outcomes: without a query string object, reading `limit` throws a
   * `TypeError`. With one, a missing, empty or over-100 limit is a validation
   * error with the limit message; any other limit is passed to `FindFirst`
   * unchanged and its data, or its failure, is the result. So `GET` succeeds
   * exactly when there is a query string whose limit passes the check and
   * `FindFirst` succeeds.
   */
  lemma GetOutcome(env: Env, request: Request)
    ensures request.queryString.None? ==> Get(env, request) == Failure(Unclassified(NullQueryMessage))
    ensures Get(env, request).Success? <==>
      && request.queryString.Some?
      && "limit" in request.queryString.value
      && !LimitRejected(env, Some(request.queryString.value["limit"]))
      && env.findFirst(request.queryString.value["limit"]).Success?
    ensures request.queryString.Some? ==> (var q := request.queryString.value;
      var r := Get(env, request);
      && ("limit" !in q ==> r == Failure(ValidationError(LimitMessage)))
      && ("limit" in q && q["limit"] == "" ==> r == Failure(ValidationError(LimitMessage)))
      && ("limit" in q && env.toNumber(q["limit"]).Some? && env.toNumber(q["limit"]).value > 100.0 ==>
            r == Failure(ValidationError(LimitMessage)))
      && ("limit" in q && !LimitRejected(env, Some(q["limit"])) ==>
            match env.findFirst(q["limit"])
            case Success(data) => r == Success(MethodReturn(data))
            case Failure(e) => r == Failure(e)))
  {
  }
}
