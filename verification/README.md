# LambdaMiddlewareRouter request pipeline, modelled in Dafny

This project models the request pipeline of the `api` Lambda function of LambdaMiddlewareRouter. The handler
threads a context record `{event, context, request, response, auditRecord, error}` through three middlewares
and a router:

- Error classifier, AuditLog recorder and Request normaliser are registered in that order.
- Each `before` runs in registration order. A middleware is appended to the executing list before its `before` is called.
- The loop breaks on the first throw, and also on a returned context whose `error` is not `null`.
- The router is dispatched only while `error` is still `null`.
- Every appended middleware's `after` then runs in reverse order.
- The router resolves a route by path and calls the method named by the HTTP verb. Two routes exist: `/v1/person` (`POST`, `GET`) and `/v1/ping` (`GET`).

Modules, one per source component:

- `Pipeline` (`pipeline.dfy`): the engine, generic over the middleware list. `Run` returns the final
  context, the number of appended middlewares, whether the router ran, and a trace of every call with the
  context it received. The ordering properties are lemmas over that trace.
- `HandlerLoop` (`handler_loop.dfy`): the same loops written the way the entry point runs them: `break`, and
  a walk over the reversed executing list. It is proved to compute exactly what `Run` describes.
- `ErrorMiddleware`, `AuditLogMiddleware`, `RequestMiddleware`: the three middlewares.
- `Router`, `PersonRoute`, `PingRoute`: dispatch and the two routes.
- `App`: the engine instantiated with the registered middlewares. `Scenarios`: end-to-end behaviour.
- `Types`, `JsValues`, `Wrappers`: the context record and its parts, JSON values with the JavaScript
  coercions the routes rely on (truthiness, property reads, UTF-16 `length`), and `Option`/`Result`.

The context's `error` slot has three states: `Null`, `Absent` and `Raised`. `Absent` is needed because the
router's success result has no `error` field at all. The before-loop tests `!== null`, so `Absent` and
`Null` are not interchangeable. The error middleware tests truthiness, so both mean "no error".

The code as written has these consequences, which the model keeps:

- The after phase runs Request, then AuditLog, then Error. The audit entry is therefore emitted before the
  error classifier sets `status_code`. A failed invocation emits a record with no status code at all
  (`App.AuditEmittedOnce`).
- The root path `/` normalises to the empty path, which names no route.
- The email length clause `!email.length > 1024` can never hold, so long emails are accepted.
- A `GET /v1/person` whose event has no query-string object reads `limit` off `null`. That throws a
  `TypeError`, which ends as the generic 5000 response rather than the 5002 limit message
  (`PersonRoute.GetOutcome`, `Scenarios.ListPersonsWithoutQueryString`).
- A `before` that returns a context carrying an error stops the before-loop, but that context is dropped.
  The router still runs (`Pipeline.ReturnedErrorStillDispatches`).

## Model

| member | source | states |
|---|---|---|
| Pipeline.BeforeFrom | src/lambda/api/app.js:52-64 | the before-loop appends at least the first remaining middleware and never more than the list; its calls are `before` of consecutive registration indices |
| Pipeline.AfterFrom | src/lambda/api/app.js:69-76 | the after-loop makes exactly one call per appended middleware, from the last appended down to the first |
| Pipeline.RunShape | src/lambda/api/app.js:43-76 | every run is `before` of the first `started` middlewares in order, the router iff dispatched, then `after` of the same middlewares in reverse; the first middleware is always appended |
| Pipeline.Run | src/lambda/api/app.js:43-76 | one handler run: the first middleware is always started, never more than the list, and the trace holds one `before` and one `after` per started middleware plus the dispatch if any |
| Pipeline.CallCounts | src/lambda/api/app.js:52-76 | an appended middleware gets exactly one `before` and one `after`, a later one gets neither, and the router runs at most once |
| Pipeline.AfterStagesCount | src/lambda/api/app.js:69-76 | among the after calls of `k` appended middlewares, `after` of `i` occurs once if `i < k` and never otherwise |
| Pipeline.BeforeStagesCount | src/lambda/api/app.js:52-55 | among the before calls of `k` appended middlewares, `before` of `i` occurs once if `i < k` and never otherwise |
| Pipeline.FirstMiddlewareAfterIsLast | src/lambda/api/app.js:69-76 | the first registered middleware's `after` is the last call of every invocation |
| Pipeline.BeforeFromThreads | src/lambda/api/app.js:55-63 | each `before` sees the context the previous call settled on; only the last call may break the loop |
| Pipeline.BeforeFromStops | src/lambda/api/app.js:57-60 | the loop stops early only on a throw or a returned error; it ends on the settled context: throw written on, returned error dropped |
| Pipeline.BeforeFromKeepsNull | src/lambda/api/app.js:50-63 | from `error: null`, every `before` sees `null`, and the loop ends with `null` or a thrown error, never a returned one |
| Pipeline.BeforeFromError | src/lambda/api/app.js:55-60 | from `error: null`, the before-loop ends with `null` exactly when none of its calls threw |
| Pipeline.AfterFromThreads | src/lambda/api/app.js:69-76 | each `after` sees the context the previous one settled on; a throw overwrites `error` and the loop goes on; nothing returned keeps the context |
| Pipeline.DispatchIffNoBeforeThrew | src/lambda/api/app.js:66-67 | the router runs exactly when no `before` threw, and sees the context the before-loop ended on |
| Pipeline.BeforeThrowSkipsDispatch | src/lambda/api/app.js:54-60 | a throwing `before` is the last appended middleware, the router is skipped, and the first `after` already sees the thrown error |
| Pipeline.ReturnedErrorStillDispatches | src/lambda/api/app.js:57-66 | a `before` returning a context with an error stops the loop, but its context is dropped and the router still runs on the context that `before` was handed |
| Pipeline.AfterPhaseThreads | src/lambda/api/app.js:69-76 | within a whole run, the after calls follow the router (or the before-loop) in reverse order, each seeing the previous call's settled context, and the run ends on the last one |
| HandlerLoop.BeforeLoop | src/lambda/api/app.js:48-64 | the `break`-based loop over the registration list ends on the engine's context, with the executing list equal to the engine's appended prefix |
| HandlerLoop.AfterLoop | src/lambda/api/app.js:69-76 | walking the reversed executing list ends on the engine's after-phase context |
| HandlerLoop.Handle | src/lambda/api/app.js:37-81 | the handler as written ends on the engine's final context and executing list, and returns that context's response |
| ErrorMiddleware.StatusCode | src/lambda/api/middleware/Error.js:39-58 | HandledError gives 5001, ValidationError 5002, AuthError 3001, anything else 5000 |
| ErrorMiddleware.StatusCodeDistinguishesKinds | src/lambda/api/middleware/Error.js:39-58 | two failures share a status code exactly when they are of the same kind; no failure gets 2000 |
| ErrorMiddleware.ResponseDataHidesUnclassified | src/lambda/api/middleware/Error.js:42-57 | known kinds return their raw message; the unclassified response is "Unexpected Error Occurred" whatever the message |
| ErrorMiddleware.After | src/lambda/api/middleware/Error.js:24-61 | no error (null or undefined): context unchanged; error: audit marked failed with message and code, nothing else in it changes, response carries code, safe data and TraceID; event, context, request and error pass through |
| ErrorMiddleware.Before | src/lambda/api/middleware/Error.js:17-22 | returns nothing and cannot throw, so the before-loop goes on with the context it had |
| AuditLogMiddleware.Before | src/lambda/api/middleware/AuditLog.js:17-27 | only the audit record is replaced, by a fresh one with new id, trace id, origin, start time and ENVIRONMENT/VERSION/BUILD stamps; all outcome fields unset |
| AuditLogMiddleware.Emitted | src/lambda/api/middleware/AuditLog.js:30-35 | the emitted entry is the record as seen with `run_time = TIMEOUT*1000 - remaining`; status and status code untouched |
| AuditLogMiddleware.After | src/lambda/api/middleware/AuditLog.js:30-36 | emits the entry `Emitted` describes, returns nothing and cannot throw, so the after-loop keeps its context |
| AuditLogMiddleware.RunTimeIsElapsed | src/lambda/api/middleware/AuditLog.js:34 | with a count-down clock, run time is the elapsed time shifted by the timeout difference; with equal timeouts it is the elapsed time |
| RequestMiddleware.StripTrailingSlashSpec | src/lambda/api/middleware/Request.js:27-28 | the normalised path is a prefix of the raw one, shorter by exactly one iff it ended in `/`; it ends in `/` iff the raw path ended in `//`; `/` becomes empty |
| RequestMiddleware.StripTrailingSlash | src/lambda/api/middleware/Request.js:27-28 | drops at most one trailing character, keeps a prefix, and leaves a path without a trailing `/` unchanged |
| RequestMiddleware.StripTrailingSlashIdempotent | src/lambda/api/middleware/Request.js:27-28 | normalising twice equals normalising once on any path not ending in `//` |
| RequestMiddleware.ParseBody | src/lambda/api/middleware/Request.js:24 | a body that parses is kept as parsed; one that does not parse becomes null, without a failure |
| RequestMiddleware.Before | src/lambda/api/middleware/Request.js:14-33 | never throws; the request is the normalised one; origin_path and meta are stamped and nothing else in the audit record changes; event, context, response and error pass through |
| RequestMiddleware.After | src/lambda/api/middleware/Request.js:36-39 | returns nothing and cannot throw, so the after-loop keeps its context |
| PersonRoute.Post | src/lambda/api/v1/person/index.js:23-38 | a null body is the unclassified TypeError; a success has passed the client_id, name and email checks and returns the person under the fresh id with no control or audit override |
| PersonRoute.PostOutcome | src/lambda/api/v1/person/index.js:23-38 | null body: unclassified failure; otherwise validation error with the first failing check (client_id, name, email), else the person built from body, fresh id and time is stored and returned |
| PersonRoute.EmailLengthClauseIsDead | src/lambda/api/v1/person/index.js:29 | the email length clause never holds for any value |
| PersonRoute.NameBoundary | src/lambda/api/v1/person/index.js:27 | a name over 50 characters is always rejected; a non-empty name of at most 50 BMP characters is accepted |
| PersonRoute.Get | src/lambda/api/v1/person/index.js:40-48 | no query-string object is the unclassified TypeError; a success has a limit that passes the check and returns exactly FindFirst's data for it, with no override |
| PersonRoute.GetOutcome | src/lambda/api/v1/person/index.js:40-48 | no query-string object is an unclassified TypeError; a missing, empty or over-100 limit is a validation error; any other limit is passed to FindFirst and its data or failure is the result; GET succeeds iff a query string's limit passes and FindFirst succeeds |
| PersonRoute.LimitBoundary | src/lambda/api/v1/person/index.js:42 | a non-empty limit is rejected iff it reads as a number above 100; a non-numeric one (NaN) passes; a missing or empty one is rejected |
| PingRoute.Get | src/lambda/api/v1/ping/index.js:10-13 | GET always succeeds with body "pong" and no control or audit override |
| PingRoute.GetIgnoresArguments | src/lambda/api/v1/ping/index.js:10-13 | the answer does not depend on the request or audit record |
| Router.CallMethod | src/lambda/api/app.js:22 | a verb the route has no method for fails as an unclassified "not a function" error |
| Router.Dispatch | src/lambda/api/app.js:15-34 | no request requires `.undefined/index.js` and an unknown path its own module, both failing as module-not-found; a success names a route with the verb's method and leaves a 2000 response, status true and no error field |
| Router.DispatchSucceedsIff | src/lambda/api/app.js:15-34 | the router succeeds exactly when the path names a route with a method for the verb and that method succeeds; unknown path or verb is unclassified; method failures pass through |
| Router.DispatchSuccess | src/lambda/api/app.js:24-34 | success stamps status true and 2000; response is 2000, the method's body, its control with TraceID overriding; audit override adopted; no error field |
| App.Invoke | src/lambda/api/app.js:37-81 | every invocation starts all three middlewares, dispatches the router, and ends on the error middleware's verdict on the dispatched context |
| App.Handler | src/lambda/api/app.js:37-81 | the handler always returns a response, and its control carries the invocation's request id as TraceID |
| App.BeforePhase | src/lambda/api/app.js:43-64 | all three `before` calls run, in the order Error, AuditLog, Request, and end on the prepared context |
| App.AfterPhase | src/lambda/api/app.js:69-76 | the after calls run Request, AuditLog, Error, and the result is the error middleware's verdict on the dispatched context |
| App.InvocationShape | src/lambda/api/app.js:37-81 | every invocation is B0 B1 B2, dispatch, A2 A1 A0 with the contexts each call sees |
| App.ResponseCodes | src/lambda/api/app.js:80 | the handler always returns a response; its code is 2000 iff the router succeeded, else the failure's classified code; TraceID always present |
| App.SuccessfulInvocation | src/lambda/api/app.js:25-32 | after a successful route the response is 2000 with the method's body and the merged control, and the audit record is stamped as success |
| App.FailedInvocation | src/lambda/api/middleware/Error.js:28-61 | after a failed route the response carries the classified code and safe data, and the audit record holds the raw message |
| App.AuditEmittedOnce | src/lambda/api/middleware/AuditLog.js:30-36 | exactly one audit entry is emitted, with the run time; it has status code 2000 after success and none after failure |
| Scenarios.PingAnswersPong | test/e2e/lambda/api/test-ping.js:59-60 | GET /v1/ping yields code 2000 and data "pong" |
| Scenarios.PingOtherVerbIsUnexpected | src/lambda/api/v1/ping/index.js:3-14 | any other verb on /v1/ping ends as 5000 "Unexpected Error Occurred" |
| Scenarios.UnknownPathIsUnexpected | src/lambda/api/app.js:20 | a path naming no route ends as 5000 "Unexpected Error Occurred" |
| Scenarios.TrailingSlashSameResponse | src/lambda/api/middleware/Request.js:27-28 | a path with one trailing slash yields the same response as the path without it |
| Scenarios.RoutedIgnoresEvent | src/lambda/api/app.js:15-34 | the router's verdict does not depend on the raw event |
| Scenarios.CreatePerson | test/e2e/lambda/api/test-person.js:66-72 | a valid POST yields 2000 with the new id, the body's client_id, name, email and the creation time |
| Scenarios.CreatePersonWithoutName | test/e2e/lambda/api/test-person.js:178-179 | a POST without a name yields 5002 with the name message |
| Scenarios.CreatePersonUnparseableBody | src/lambda/api/v1/person/index.js:25 | an unparseable body ends as 5000 "Unexpected Error Occurred" |
| Scenarios.CreatePersonStorageFailure | src/lambda/api/v1/person/index.js:35 | an unclassified storage failure ends as 5000 without its message |
| Scenarios.ListPersonsWithoutLimit | src/lambda/api/v1/person/index.js:42-43 | GET /v1/person with a query string but no `limit` yields 5002 with the limit message |
| Scenarios.ListPersonsWithoutQueryString | src/lambda/api/v1/person/index.js:42 | GET /v1/person with no query-string object ends as the generic 5000 response |
| Scenarios.ListFirstHundred | test/e2e/lambda/api/test-person.js:75-113 | GET /v1/person?limit=100 yields 2000 with FindFirst's data |
| JsValues.JsLength | src/lambda/api/v1/person/index.js:27 | strings and arrays have a length, at least the character count of a string; other values read undefined |
| JsValues.Utf16LengthBounds | src/lambda/api/v1/person/index.js:27 | a string's UTF-16 length lies between its character count and twice that |

## Left out

- Logging, X-Ray tracing, `console.error` and the debug flag: side effects with no bearing on the result. The handler sets the invocation's request id as its logger's trace id; the model assumes the `LambdaLog` instances the Error and AuditLog middlewares create read the same trace id. `helpers/lambda_log` is not part of this model.
- `LambdaResponse.API_GATEWAY` is reduced to the record `(code, data, control)`. The JSON envelope and the fixed 200 transport status are not modelled.
- `LambdaEvents.API_GATEWAY__PROXY` is not part of this model. The event already holds the method, path, query string, raw body and authorization, and the conversion is assumed not to throw. An event with no query string (the end-to-end fixtures set `queryStringParameters: null` then) is assumed to arrive as a missing query-string object, so a `GET /v1/person` without any query ends as 5000 in the model.
- `JSON.parse` and JavaScript's `Number()` are not part of this model. They are parameters of `Env`, so no JSON grammar is modelled.
- `audit_log` is not part of this model. Only the fields the pipeline reads or writes are kept; the six unnamed constructor positions that are always null are dropped, and the `"api"` stamp is kept as `kind`.
- `MethodReturn` (in the route base class) is not part of this model. It is assumed to wrap the body with no control and no audit override.
- `data_schema/person.js` is not part of this model. The stored person is modelled with the five fields the end-to-end test reads.
- `DynamoPerson` (`Put`/`FindFirst`), `uuid` and `moment` are parameters of `Env`: storage results, fresh ids and timestamps.
- The remaining-time clock is one integer per invocation, the value AuditLog's `after` reads.
- TypeError messages are written in the wording of the Node.js 12 runtime the function is deployed on (lib/lambda_middleware_router-stack.js:33), such as "Cannot read property 'limit' of null"; later runtimes word them differently.
- Node's "Require stack" list in the module-not-found message depends on where the function is deployed; it is the `requireStack` parameter of `Env`.
- Dynamic `require` by path is an exact lookup in the two-entry route table. Node's own path resolution is not modelled, so double slashes and `.` segments resolve to no route here.
- A `verb` naming an inherited member of the route base class is treated like any other missing method.
- In-place mutation of shared objects is modelled only where it reaches the result. In the source, AuditLog's `after` writes `run_time` into the live record; here it appears in the emitted entry. A `before` that mutates the audit record and then throws or returns an error is not modelled; the registered middlewares never do that.
- Error kinds are disjoint constructors. Subclassing among the error classes is not known and not modelled.
- Thrown values that are falsy or lack a `message` are not modelled.
- An object with its own `length` key is treated as having no length in the name check.
- Async/await is modelled as sequential calls, since nothing runs concurrently within an invocation.
- CDK stack, binaries, load-test data generation and the test harness are outside the pipeline.
