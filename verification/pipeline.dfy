/**
 * The middleware engine of the Lambda handler, generic over the middleware
 * list: each middleware's `before` runs in registration order (each one is
 * appended to the executing list before its `before` is called), the router is
 * dispatched only while `error` is still `null`, and then every appended
 * middleware's `after` runs in reverse order. The engine records a trace of
 * the calls it makes, each with the context the call received.
 */
module Pipeline {
  import opened Wrappers
  import opened Types

  /** What an awaited `before`/`after` call produced: a context, nothing (`undefined`), or a throw. */
  datatype Outcome = Returned(ctx: Context) | NoReturn | Threw(err: Error)

  /** One call the engine makes; `index` is the middleware's position in the registration list. */
  datatype Stage = BeforeOf(index: nat) | DispatchStage | AfterOf(index: nat)

  /** A call together with the context it was handed. */
  datatype Entry = Entry(stage: Stage, input: Context)

  /** State at the end of the before-loop: the context, how many middlewares were appended, and the calls made. */
  datatype BeforeResult = BeforeResult(ctx: Context, started: nat, trace: seq<Entry>)

  datatype AfterResult = AfterResult(ctx: Context, trace: seq<Entry>)

  /** One whole invocation: final context, number of appended middlewares, whether the router ran, and the calls made. */
  datatype RunResult = RunResult(ctx: Context, started: nat, dispatched: bool, trace: seq<Entry>)

  /** A `before` outcome breaks the loop when it is a throw or a returned context whose `error` is not `null`. */
  predicate Halts(o: Outcome) {
    o.Threw? || (o.Returned? && !o.ctx.error.Null?)
  }

  /**
   * The handler after one `before` call. A throw is caught and written onto the
   * current handler; a returned context replaces the handler only when its
   * `error` is `null` (otherwise the loop breaks and the returned context is
   * dropped); returning nothing keeps the handler.
   */
  function BeforeSettle(h: Context, o: Outcome): Context {
    match o
    case Threw(e) => h.(error := Raised(e))
    case Returned(c) => if c.error.Null? then c else h
    case NoReturn => h
  }

  /** The handler after one `after` call: a throw overwrites `error`, a returned context replaces the handler. */
  function AfterSettle(h: Context, o: Outcome): Context {
    match o
    case Threw(e) => h.(error := Raised(e))
    case Returned(c) => c
    case NoReturn => h
  }

  /** The handler after the dispatch step: the router's context, or the current one carrying the router's failure. */
  function DispatchSettle(h: Context, d: Result<Context, Error>): Context {
    match d
    case Success(c) => c
    case Failure(e) => h.(error := Raised(e))
  }

  /** The before-loop from registration index `i` on. */
  function BeforeFrom<M>(mws: seq<M>, before: (M, Context) -> Outcome, i: nat, h: Context): (r: BeforeResult)
    requires i <= |mws|
    ensures i <= r.started <= |mws|
    ensures i < |mws| ==> i < r.started
    ensures |r.trace| == r.started - i
    ensures forall n :: 0 <= n < |r.trace| ==> r.trace[n].stage == BeforeOf(i + n)
    decreases |mws| - i
  {
    if i == |mws| then BeforeResult(h, i, [])
    else
      var o := before(mws[i], h);
      var next := BeforeSettle(h, o);
      if Halts(o) then BeforeResult(next, i + 1, [Entry(BeforeOf(i), h)])
      else
        var rest := BeforeFrom(mws, before, i + 1, next);
        BeforeResult(rest.ctx, rest.started, [Entry(BeforeOf(i), h)] + rest.trace)
  }

  /** The after-loop over the first `j` appended middlewares, from index `j - 1` down to `0`. */
  function AfterFrom<M>(mws: seq<M>, after: (M, Context) -> Outcome, j: nat, h: Context): (r: AfterResult)
    requires j <= |mws|
    ensures |r.trace| == j
    ensures forall n :: 0 <= n < j ==> r.trace[n].stage == AfterOf(j - 1 - n)
    decreases j
  {
    if j == 0 then AfterResult(h, [])
    else
      var rest := AfterFrom(mws, after, j - 1, AfterSettle(h, after(mws[j - 1], h)));
      AfterResult(rest.ctx, [Entry(AfterOf(j - 1), h)] + rest.trace)
  }

  /**
   * One invocation of the handler over the middleware list `mws`, starting from
   * `h0`: at least the first middleware is started whenever there is one, and
   * the trace holds one `before` and one `after` per started middleware plus
   * the dispatch, if any.
   */
  function Run<M>(mws: seq<M>, before: (M, Context) -> Outcome, after: (M, Context) -> Outcome,
                  dispatch: Context -> Result<Context, Error>, h0: Context): (r: RunResult)
    ensures r.started <= |mws|
    ensures |mws| > 0 ==> r.started > 0
    ensures |r.trace| == 2 * r.started + (if r.dispatched then 1 else 0)
  {
    var b := BeforeFrom(mws, before, 0, h0);
    var dispatched := b.ctx.error.Null?;
    var d := if dispatched then DispatchSettle(b.ctx, dispatch(b.ctx)) else b.ctx;
    var a := AfterFrom(mws, after, b.started, d);
    RunResult(a.ctx, b.started, dispatched,
              b.trace + (if dispatched then [Entry(DispatchStage, b.ctx)] else []) + a.trace)
  }

  /** The `after` calls of a run: the last `started` calls of its trace. */
  function AfterCalls(r: RunResult): seq<Entry> {
    if r.started <= |r.trace| then r.trace[|r.trace| - r.started..] else []
  }

  /** The stages of a trace, without the contexts. */
  function Stages(tr: seq<Entry>): (r: seq<Stage>)
    ensures |r| == |tr|
    ensures forall n :: 0 <= n < |tr| ==> r[n] == tr[n].stage
  {
    seq(|tr|, n requires 0 <= n < |tr| => tr[n].stage)
  }

  /** `before` of middlewares `0 .. k-1`, in registration order. */
  function BeforeStages(k: nat): seq<Stage> {
    seq(k, n requires 0 <= n < k => BeforeOf(n))
  }

  /** `after` of middlewares `k-1 .. 0`, in reverse registration order. */
  function AfterStages(k: nat): seq<Stage> {
    seq(k, n requires 0 <= n < k => AfterOf(k - 1 - n))
  }

  // ---------------------------------------------------------------------------
  // Ordering of the calls
  // ---------------------------------------------------------------------------

  /**
   * Every invocation makes exactly these calls: `before` of the first `started`
   * middlewares in order, then the router if and only if it was dispatched,
   * then `after` of the same `started` middlewares in reverse order. At least
   * the first middleware is always appended.
   */
  lemma RunShape<M>(mws: seq<M>, before: (M, Context) -> Outcome, after: (M, Context) -> Outcome,
                    dispatch: Context -> Result<Context, Error>, h0: Context)
    ensures var r := Run(mws, before, after, dispatch, h0);
      && r.started <= |mws|
      && (|mws| > 0 ==> r.started > 0)
      && Stages(r.trace) == BeforeStages(r.started) + (if r.dispatched then [DispatchStage] else []) + AfterStages(r.started)
  {
  }

  /** How often `after` of middleware `i` occurs among the after-stages of `k` appended middlewares. */
  lemma {:induction false} AfterStagesCount(k: nat, i: nat)
    ensures multiset(AfterStages(k))[AfterOf(i)] == (if i < k then 1 else 0)
    ensures multiset(AfterStages(k))[DispatchStage] == 0
    ensures multiset(AfterStages(k))[BeforeOf(i)] == 0
  {
    if k > 0 {
      AfterStagesCount(k - 1, i);
      assert AfterStages(k) == [AfterOf(k - 1)] + AfterStages(k - 1);
    }
  }

  /** How often `before` of middleware `i` occurs among the before-stages of `k` appended middlewares. */
  lemma {:induction false} BeforeStagesCount(k: nat, i: nat)
    ensures multiset(BeforeStages(k))[BeforeOf(i)] == (if i < k then 1 else 0)
    ensures multiset(BeforeStages(k))[DispatchStage] == 0
    ensures multiset(BeforeStages(k))[AfterOf(i)] == 0
  {
    if k > 0 {
      BeforeStagesCount(k - 1, i);
      assert BeforeStages(k) == BeforeStages(k - 1) + [BeforeOf(k - 1)];
    }
  }

  /**
   * Each appended middleware gets exactly one `before` and exactly one `after`;
   * a middleware past the point where the before-loop stopped gets neither; the
   * router runs at most once.
   */
  lemma CallCounts<M>(mws: seq<M>, before: (M, Context) -> Outcome, after: (M, Context) -> Outcome,
                      dispatch: Context -> Result<Context, Error>, h0: Context, i: nat)
    ensures var r := Run(mws, before, after, dispatch, h0);
      && multiset(Stages(r.trace))[BeforeOf(i)] == (if i < r.started then 1 else 0)
      && multiset(Stages(r.trace))[AfterOf(i)] == (if i < r.started then 1 else 0)
      && multiset(Stages(r.trace))[DispatchStage] == (if r.dispatched then 1 else 0)
  {
    var r := Run(mws, before, after, dispatch, h0);
    RunShape(mws, before, after, dispatch, h0);
    BeforeStagesCount(r.started, i);
    AfterStagesCount(r.started, i);
  }

  /** When at least one middleware is registered, the first one's `after` is the last call of the invocation. */
  lemma FirstMiddlewareAfterIsLast<M>(mws: seq<M>, before: (M, Context) -> Outcome, after: (M, Context) -> Outcome,
                                      dispatch: Context -> Result<Context, Error>, h0: Context)
    requires |mws| > 0
    ensures var r := Run(mws, before, after, dispatch, h0);
      |r.trace| > 0 && r.trace[|r.trace| - 1].stage == AfterOf(0)
  {
  }

  // ---------------------------------------------------------------------------
  // The before-loop
  // ---------------------------------------------------------------------------

  /**
   * The before-loop threads the context: the first call sees the starting
   * context, every call but the last neither threw nor returned a context with
   * an error, and each call sees the context the previous one settled on.
   */
  lemma {:induction false} BeforeFromThreads<M>(mws: seq<M>, before: (M, Context) -> Outcome, i: nat, h: Context)
    requires i <= |mws|
    ensures var r := BeforeFrom(mws, before, i, h);
      && (|r.trace| > 0 ==> r.trace[0].input == h)
      && (forall n :: 0 <= n < |r.trace| - 1 ==>
            !Halts(before(mws[i + n], r.trace[n].input))
            && r.trace[n + 1].input == BeforeSettle(r.trace[n].input, before(mws[i + n], r.trace[n].input)))
    decreases |mws| - i
  {
    if i < |mws| && !Halts(before(mws[i], h)) {
      BeforeFromThreads(mws, before, i + 1, BeforeSettle(h, before(mws[i], h)));
    }
  }

  /**
   * The before-loop stops at the first call that halts it, and ends on the
   * context that call settled on; it runs to the end of the list otherwise.
   */
  lemma {:induction false} BeforeFromStops<M>(mws: seq<M>, before: (M, Context) -> Outcome, i: nat, h: Context)
    requires i <= |mws|
    ensures var r := BeforeFrom(mws, before, i, h);
      && (|r.trace| == 0 ==> r.ctx == h)
      && (|r.trace| > 0 ==>
            var last := r.trace[|r.trace| - 1].input;
            var o := before(mws[r.started - 1], last);
            && (r.started < |mws| ==> Halts(o))
            && r.ctx == BeforeSettle(last, o))
    decreases |mws| - i
  {
    if i < |mws| && !Halts(before(mws[i], h)) {
      BeforeFromStops(mws, before, i + 1, BeforeSettle(h, before(mws[i], h)));
    }
  }

  /** No `before` among the calls of `tr` (made from registration index `i` on) threw. */
  predicate NoneThrew<M>(mws: seq<M>, before: (M, Context) -> Outcome, i: nat, tr: seq<Entry>)
    requires i + |tr| <= |mws|
  {
    forall n :: 0 <= n < |tr| ==> !before(mws[i + n], tr[n].input).Threw?
  }

  lemma NoneThrewCons<M>(mws: seq<M>, before: (M, Context) -> Outcome, i: nat, e: Entry, tr: seq<Entry>)
    requires i + 1 + |tr| <= |mws|
    ensures NoneThrew(mws, before, i, [e] + tr)
        <==> !before(mws[i], e.input).Threw? && NoneThrew(mws, before, i + 1, tr)
  {
    var s := [e] + tr;
    if !before(mws[i], e.input).Threw? && NoneThrew(mws, before, i + 1, tr) {
      forall n | 0 <= n < |s| ensures !before(mws[i + n], s[n].input).Threw? {
        if n > 0 {
          assert s[n] == tr[n - 1];
          assert i + n == i + 1 + (n - 1);
        }
      }
    }
    if NoneThrew(mws, before, i, s) {
      assert !before(mws[i + 0], s[0].input).Threw?;
      forall n | 0 <= n < |tr| ensures !before(mws[i + 1 + n], tr[n].input).Threw? {
        assert tr[n] == s[n + 1];
      }
    }
  }

  /**
   * Starting from `error == null`, every `before` sees `error == null`, and the
   * loop ends either with `error == null` or with a thrown error. A returned
   * context that carries an error is dropped, so it never reaches the handler.
   */
  lemma {:induction false} BeforeFromKeepsNull<M>(mws: seq<M>, before: (M, Context) -> Outcome, i: nat, h: Context)
    requires i <= |mws|
    requires h.error.Null?
    ensures var r := BeforeFrom(mws, before, i, h);
      && (forall n :: 0 <= n < |r.trace| ==> r.trace[n].input.error.Null?)
      && (r.ctx.error.Null? || r.ctx.error.Raised?)
    decreases |mws| - i
  {
    if i < |mws| && !Halts(before(mws[i], h)) {
      var next := BeforeSettle(h, before(mws[i], h));
      BeforeFromKeepsNull(mws, before, i + 1, next);
      var rest := BeforeFrom(mws, before, i + 1, next);
      assert BeforeFrom(mws, before, i, h).trace == [Entry(BeforeOf(i), h)] + rest.trace;
    }
  }

  /** Starting from `error == null`, the before-loop ends with `error == null` exactly when none of its calls threw. */
  lemma {:induction false} BeforeFromError<M>(mws: seq<M>, before: (M, Context) -> Outcome, i: nat, h: Context)
    requires i <= |mws|
    requires h.error.Null?
    ensures var r := BeforeFrom(mws, before, i, h);
      r.ctx.error.Null? <==> NoneThrew(mws, before, i, r.trace)
    decreases |mws| - i
  {
    if i < |mws| {
      var o := before(mws[i], h);
      if !Halts(o) {
        var next := BeforeSettle(h, o);
        BeforeFromError(mws, before, i + 1, next);
        var rest := BeforeFrom(mws, before, i + 1, next);
        NoneThrewCons(mws, before, i, Entry(BeforeOf(i), h), rest.trace);
      } else {
        NoneThrewCons(mws, before, i, Entry(BeforeOf(i), h), []);
      }
    }
  }

  // ---------------------------------------------------------------------------
  // The after-loop
  // ---------------------------------------------------------------------------

  /**
   * The after-loop threads the context whatever its error state: the first call
   * sees the context left by the dispatch step, each call sees the context the
   * previous one settled on (a throw overwrites `error` and the loop goes on),
   * and the loop ends on what the call of middleware `0` settled on.
   */
  lemma {:induction false} AfterFromThreads<M>(mws: seq<M>, after: (M, Context) -> Outcome, j: nat, h: Context)
    requires j <= |mws|
    ensures var r := AfterFrom(mws, after, j, h);
      && (j == 0 ==> r.ctx == h)
      && (j > 0 ==> (r.trace[0].input == h
                     && r.ctx == AfterSettle(r.trace[j - 1].input, after(mws[0], r.trace[j - 1].input))))
      && (forall n :: 0 <= n < j - 1 ==>
            r.trace[n + 1].input == AfterSettle(r.trace[n].input, after(mws[j - 1 - n], r.trace[n].input)))
    decreases j
  {
    if j > 0 {
      var next := AfterSettle(h, after(mws[j - 1], h));
      AfterFromThreads(mws, after, j - 1, next);
      var r := AfterFrom(mws, after, j, h);
      var rest := AfterFrom(mws, after, j - 1, next);
      assert r.trace == [Entry(AfterOf(j - 1), h)] + rest.trace;
      assert forall n :: 1 <= n < j ==> r.trace[n] == rest.trace[n - 1];
    }
  }

  // ---------------------------------------------------------------------------
  // Dispatch
  // ---------------------------------------------------------------------------

  /**
   * Starting from `error == null`, the router is dispatched exactly when no
   * `before` threw; a `before` that returned a context carrying an error stops
   * the loop but does not prevent dispatch. When dispatched, the router sees the
   * context the before-loop ended on.
   */
  lemma DispatchIffNoBeforeThrew<M>(mws: seq<M>, before: (M, Context) -> Outcome, after: (M, Context) -> Outcome,
                                    dispatch: Context -> Result<Context, Error>, h0: Context)
    requires h0.error.Null?
    ensures var r := Run(mws, before, after, dispatch, h0);
      && r.started <= |r.trace|
      && (r.dispatched <==> forall n :: 0 <= n < r.started ==> !before(mws[n], r.trace[n].input).Threw?)
      && (r.dispatched ==> r.trace[r.started] == Entry(DispatchStage, BeforeFrom(mws, before, 0, h0).ctx))
  {
    var r := Run(mws, before, after, dispatch, h0);
    var b := BeforeFrom(mws, before, 0, h0);
    BeforeFromError(mws, before, 0, h0);
    BeforeFromKeepsNull(mws, before, 0, h0);
    RunShape(mws, before, after, dispatch, h0);
    assert forall n :: 0 <= n < r.started ==> r.trace[n] == b.trace[n];
  }

  /**
   * A `before` that throws stops the loop: it is the last middleware appended,
   * the router is not dispatched, and the first `after` call already sees the
   * thrown error.
   */
  lemma BeforeThrowSkipsDispatch<M>(mws: seq<M>, before: (M, Context) -> Outcome, after: (M, Context) -> Outcome,
                                    dispatch: Context -> Result<Context, Error>, h0: Context, j: nat)
    requires h0.error.Null?
    requires var r := Run(mws, before, after, dispatch, h0);
      j < r.started && j < |r.trace| && before(mws[j], r.trace[j].input).Threw?
    ensures var r := Run(mws, before, after, dispatch, h0);
      && r.started == j + 1
      && !r.dispatched
      && r.trace[r.started] == Entry(AfterOf(j), r.trace[j].input.(error := Raised(before(mws[j], r.trace[j].input).err)))
  {
    var r := Run(mws, before, after, dispatch, h0);
    var b := BeforeFrom(mws, before, 0, h0);
    RunShape(mws, before, after, dispatch, h0);
    BeforeFromThreads(mws, before, 0, h0);
    BeforeFromStops(mws, before, 0, h0);
    assert forall n :: 0 <= n < r.started ==> r.trace[n] == b.trace[n];
    assert j == r.started - 1;
    AfterFromThreads(mws, after, b.started, b.ctx);
    var a := AfterFrom(mws, after, b.started, b.ctx);
    assert r.trace[r.started] == a.trace[0];
  }

  /**
   * A `before` that returns a context carrying an error, instead of throwing,
   * stops the loop, but its context is dropped: the error never reaches the
   * handler and the router is still dispatched, on the context that `before`
   * was handed.
   */
  lemma ReturnedErrorStillDispatches<M>(mws: seq<M>, before: (M, Context) -> Outcome, after: (M, Context) -> Outcome,
                                        dispatch: Context -> Result<Context, Error>, h0: Context)
    requires h0.error.Null?
    requires var r := Run(mws, before, after, dispatch, h0);
      0 < r.started && r.started <= |r.trace|
      && var o := before(mws[r.started - 1], r.trace[r.started - 1].input);
         o.Returned? && !o.ctx.error.Null?
    ensures var r := Run(mws, before, after, dispatch, h0);
      && r.dispatched
      && r.trace[r.started] == Entry(DispatchStage, r.trace[r.started - 1].input)
  {
    var r := Run(mws, before, after, dispatch, h0);
    var b := BeforeFrom(mws, before, 0, h0);
    RunShape(mws, before, after, dispatch, h0);
    BeforeFromStops(mws, before, 0, h0);
    BeforeFromKeepsNull(mws, before, 0, h0);
    assert r.trace[r.started - 1] == b.trace[r.started - 1];
    DispatchIffNoBeforeThrew(mws, before, after, dispatch, h0);
  }

  /**
   * The after calls of a run, whatever the error state: each sees the context
   * the previous one settled on, so a throwing `after` overwrites `error` and
   * the later calls still run and see it, and one returning nothing leaves the
   * context as it was; the run ends on what the last call settled on.
   */
  lemma AfterPhaseThreads<M>(mws: seq<M>, before: (M, Context) -> Outcome, after: (M, Context) -> Outcome,
                             dispatch: Context -> Result<Context, Error>, h0: Context)
    ensures var r := Run(mws, before, after, dispatch, h0);
      var at := AfterCalls(r);
      && |at| == r.started
      && (forall n :: 0 <= n < |at| ==> at[n].stage == AfterOf(r.started - 1 - n))
      && (forall n :: 0 <= n < |at| - 1 ==>
            at[n + 1].input == AfterSettle(at[n].input, after(mws[r.started - 1 - n], at[n].input)))
      && (r.started > 0 ==>
            r.ctx == AfterSettle(at[r.started - 1].input, after(mws[0], at[r.started - 1].input)))
  {
    var r := Run(mws, before, after, dispatch, h0);
    var b := BeforeFrom(mws, before, 0, h0);
    var d := if r.dispatched then DispatchSettle(b.ctx, dispatch(b.ctx)) else b.ctx;
    var a := AfterFrom(mws, after, b.started, d);
    var mid: seq<Entry> := if r.dispatched then [Entry(DispatchStage, b.ctx)] else [];
    assert r.trace == (b.trace + mid) + a.trace;
    AfterFromThreads(mws, after, b.started, d);
    assert AfterCalls(r) == a.trace;
  }
}
