/**
 * The handler's loops written the way the Lambda entry point runs them: an
 * executing list that grows before each `before` call, a `break` out of the
 * before-loop, one guarded dispatch, and a walk over the reversed executing
 * list. The method computes exactly what the engine's recursive definition
 * describes.
 */
module HandlerLoop {
  import opened Wrappers
  import opened Types
  import opened Pipeline

  function Reverse<T>(s: seq<T>): (r: seq<T>)
    ensures |r| == |s|
    ensures forall n :: 0 <= n < |s| ==> r[n] == s[|s| - 1 - n]
  {
    if |s| == 0 then [] else [s[|s| - 1]] + Reverse(s[..|s| - 1])
  }

  /**
   * The before-loop: append the middleware, await its `before`; a throw is
   * written onto the handler and breaks, a returned context with an error
   * breaks without being adopted, any other returned context is adopted.
   */
  method BeforeLoop<M>(mws: seq<M>, before: (M, Context) -> Outcome, h0: Context)
    returns (executing: seq<M>, handler: Context)
    ensures var b := BeforeFrom(mws, before, 0, h0);
      handler == b.ctx && executing == mws[..b.started]
  {
    ghost var b := BeforeFrom(mws, before, 0, h0);
    executing := [];
    handler := h0;
    var i := 0;
    while i < |mws|
      invariant i <= |mws|
      invariant executing == mws[..i]
      invariant BeforeFrom(mws, before, i, handler) == b.(trace := BeforeFrom(mws, before, i, handler).trace)
    {
      executing := executing + [mws[i]];
      var ret := before(mws[i], handler);
      if ret.Threw? {
        handler := handler.(error := Raised(ret.err));
        break;
      }
      if ret.Returned? {
        if !ret.ctx.error.Null? {
          break;
        }
        handler := ret.ctx;
      }
      i := i + 1;
    }
  }

  /** The after-loop: await `after` of each middleware of `reversed`, in that order. */
  method AfterLoop<M>(mws: seq<M>, after: (M, Context) -> Outcome, reversed: seq<M>, d: Context)
    returns (handler: Context)
    requires |reversed| <= |mws|
    requires forall n :: 0 <= n < |reversed| ==> reversed[n] == mws[|reversed| - 1 - n]
    ensures handler == AfterFrom(mws, after, |reversed|, d).ctx
  {
    handler := d;
    var k := 0;
    while k < |reversed|
      invariant k <= |reversed|
      invariant AfterFrom(mws, after, |reversed| - k, handler).ctx == AfterFrom(mws, after, |reversed|, d).ctx
    {
      var ret := after(reversed[k], handler);
      match ret {
        case Threw(e) => handler := handler.(error := Raised(e));
        case Returned(c) => handler := c;
        case NoReturn =>
      }
      k := k + 1;
    }
  }

  /**
   * One invocation over `mws`. The handler ends on the context the engine
   * describes, the executing list is the prefix of the registration list the
   * engine counts as started, and the returned response is the handler's.
   */
  method Handle<M>(mws: seq<M>, before: (M, Context) -> Outcome, after: (M, Context) -> Outcome,
                   dispatch: Context -> Result<Context, Error>, h0: Context)
    returns (response: Option<Response>, executing: seq<M>, handler: Context)
    ensures var r := Run(mws, before, after, dispatch, h0);
      && handler == r.ctx
      && executing == mws[..r.started]
      && response == r.ctx.response
  {
    executing, handler := BeforeLoop(mws, before, h0);
    if handler.error.Null? {
      var routed := dispatch(handler);
      match routed {
        case Success(c) => handler := c;
        case Failure(e) => handler := handler.(error := Raised(e));
      }
    }
    handler := AfterLoop(mws, after, Reverse(executing), handler);
    response := handler.response;
  }
}
