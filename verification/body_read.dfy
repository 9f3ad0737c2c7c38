/**
 * The content handler `ngx_dashll_http_content_handler` and the body
 * completion callback `ngx_dashll_payload_handler`, which together make sure
 * the request body is complete before the phase loop continues.
 *
 * The host is reduced to its answers: whether `ngx_pcalloc` found memory and
 * what `ngx_http_read_client_request_body` returned are inputs, and a call of
 * `ngx_http_core_run_phases` (resuming the request's phase loop) is counted
 * in a ghost field. The callback is modelled as a call made after the content
 * handler has returned, on the context the handler attached.
 */
module BodyRead {
  import Ngx

  /** The two flags of a context, as a value. */
  datatype CtxState = CtxState(done: bool, waitingMoreBody: bool)

  /** The state `ngx_pcalloc` leaves a context in: every bit zero. */
  const ZEROED := CtxState(false, false)

  /**
   * The content handler once its context is allocated and attached: what it
   * returns and the state it leaves the context in, given the body read's
   * result. A code at or above NGX_HTTP_SPECIAL_RESPONSE is an HTTP error and
   * is handed back as it is; anything else makes the handler return
   * NGX_DONE. The context records a suspension exactly when the read
   * answered NGX_AGAIN, and the body is never marked complete here.
   */
  function AfterContentPhase(readRc: int): (r: (int, CtxState))
    ensures readRc >= Ngx.NGX_HTTP_SPECIAL_RESPONSE ==> r.0 == readRc
    ensures readRc < Ngx.NGX_HTTP_SPECIAL_RESPONSE ==> r.0 == Ngx.NGX_DONE
    ensures r.1.waitingMoreBody <==> readRc == Ngx.NGX_AGAIN
    ensures !r.1.done
  {
    if readRc >= Ngx.NGX_HTTP_SPECIAL_RESPONSE then (readRc, ZEROED)
    else if readRc == Ngx.NGX_AGAIN then (Ngx.NGX_DONE, ZEROED.(waitingMoreBody := true))
    else (Ngx.NGX_DONE, ZEROED)
  }

  /**
   * One run of the completion callback on a context in state `s`: the state
   * it leaves and whether it resumed the phase loop. It always leaves the
   * body complete and nothing pending, and it resumes exactly when a
   * suspension was pending on entry.
   */
  function AfterPayload(s: CtxState): (r: (CtxState, bool))
    ensures r.0.done && !r.0.waitingMoreBody
    ensures r.1 <==> s.waitingMoreBody
  {
    var resume := s.waitingMoreBody;
    (s.(done := true, waitingMoreBody := false), resume)
  }

  /**
   * The host delivers the completion callback `k` times to a context in
   * state `s`: the final state and how many times the phase loop was resumed.
   */
  function Deliver(s: CtxState, k: nat): (r: (CtxState, nat))
    decreases k
  {
    if k == 0 then (s, 0)
    else
      var (next, resumed) := AfterPayload(s);
      var (last, n) := Deliver(next, k - 1);
      (last, n + (if resumed then 1 else 0))
  }

  /**
   * However often the callback is delivered (at least once), the context ends
   * complete with nothing pending, and the phase loop is resumed once if a
   * suspension was pending and never otherwise: later deliveries find nothing
   * to resume.
   */
  lemma {:induction false} DeliverResumesOnce(s: CtxState, k: nat)
    requires k >= 1
    ensures Deliver(s, k).0 == CtxState(true, false)
    ensures Deliver(s, k).1 == (if s.waitingMoreBody then 1 else 0)
    decreases k
  {
    if k > 1 {
      DeliverResumesOnce(AfterPayload(s).0, k - 1);
    }
  }

  /**
   * The whole life of a context: the content handler with body read result
   * `readRc`, then `k` callbacks. Resumptions never exceed suspensions; a
   * read that did not answer NGX_AGAIN (finished at once, or failed) is never
   * resumed; a read that answered NGX_AGAIN is resumed exactly once as soon
   * as a callback arrives, and stays suspended until then.
   */
  lemma {:induction false} ResumeOnlyAfterSuspension(readRc: int, k: nat)
    ensures var suspended := AfterContentPhase(readRc).1.waitingMoreBody;
      Deliver(AfterContentPhase(readRc).1, k).1 <= (if suspended then 1 else 0)
    ensures readRc != Ngx.NGX_AGAIN ==> Deliver(AfterContentPhase(readRc).1, k).1 == 0
    ensures readRc == Ngx.NGX_AGAIN && k >= 1 ==> Deliver(AfterContentPhase(readRc).1, k).1 == 1
    ensures readRc == Ngx.NGX_AGAIN && k == 0 ==> Deliver(AfterContentPhase(readRc).1, k).0.waitingMoreBody
  {
    if k >= 1 {
      DeliverResumesOnce(AfterContentPhase(readRc).1, k);
    }
  }

  /**
   * `ngx_dashll_ctx_t`, the per-request context. `suspensions` counts the
   * times the content handler recorded a suspension on it and `resumes` the
   * times the callback resumed the phase loop for it.
   */
  class Context {
    var done: bool
    var waitingMoreBody: bool
    ghost var suspensions: nat
    ghost var resumes: nat

    /**
     * The body is never complete while a suspension is still pending, at
     * most one suspension is recorded, and every recorded suspension is
     * either still pending or was resumed exactly once.
     */
    ghost predicate Valid()
      reads this
    {
      !(done && waitingMoreBody) &&
      suspensions <= 1 &&
      resumes + (if waitingMoreBody then 1 else 0) == suspensions
    }

    function State(): CtxState
      reads this
    {
      CtxState(done, waitingMoreBody)
    }

    /** A context as `ngx_pcalloc` returns it: all flags clear, nothing recorded. */
    constructor ()
      ensures Valid()
      ensures State() == ZEROED
      ensures suspensions == 0 && resumes == 0
    {
      done, waitingMoreBody := false, false;
      suspensions, resumes := 0, 0;
    }
  }

  /**
   * The part of `ngx_http_request_t` the handlers touch: the module's context
   * slot (`ngx_http_get_module_ctx` / `ngx_http_set_ctx`) and, as a ghost
   * counter, the body reads issued for it.
   */
  class RequestSlot {
    var ctx: Context?
    ghost var bodyReads: nat

    /**
     * `ngx_dashll_http_content_handler`. If allocation fails it returns
     * NGX_ERROR with no context attached and no body read issued. Otherwise
     * it attaches a fresh, zeroed context, issues one body read, and returns
     * and records what AfterContentPhase says of the read's result:
     * a suspension is recorded exactly when the read answered NGX_AGAIN.
     */
    method ContentHandler(allocOk: bool, readRc: int) returns (rc: int)
      modifies this
      ensures !allocOk ==> rc == Ngx.NGX_ERROR && ctx == old(ctx) && bodyReads == old(bodyReads)
      ensures allocOk ==>
        ctx != null && fresh(ctx) && ctx.Valid() &&
        bodyReads == old(bodyReads) + 1 &&
        (rc, ctx.State()) == AfterContentPhase(readRc) &&
        ctx.resumes == 0 &&
        ctx.suspensions == (if readRc == Ngx.NGX_AGAIN then 1 else 0)
    {
      if !allocOk {
        return Ngx.NGX_ERROR;
      }
      var c := new Context();
      ctx := c;
      bodyReads := bodyReads + 1;
      if readRc >= Ngx.NGX_HTTP_SPECIAL_RESPONSE {
        return readRc;
      }
      if readRc == Ngx.NGX_AGAIN {
        c.waitingMoreBody := true;
        c.suspensions := c.suspensions + 1;
        return Ngx.NGX_DONE;
      }
      return Ngx.NGX_DONE;
    }

    /**
     * `ngx_dashll_payload_handler`. It looks the context up without a null
     * check, so one must be attached. It marks the body complete and, if a
     * suspension was pending, clears it and resumes the phase loop once;
     * otherwise it resumes nothing. The context's invariant is kept, so
     * resumptions never exceed recorded suspensions.
     */
    method PayloadHandler()
      requires ctx != null && ctx.Valid()
      modifies ctx
      ensures ctx.Valid()
      ensures ctx.done && !ctx.waitingMoreBody
      ensures ctx.State() == AfterPayload(old(ctx.State())).0
      ensures ctx.resumes == old(ctx.resumes) + (if old(ctx.waitingMoreBody) then 1 else 0)
      ensures ctx.suspensions == old(ctx.suspensions)
      ensures ctx.resumes == ctx.suspensions
    {
      ctx.done := true;
      if ctx.waitingMoreBody {
        ctx.waitingMoreBody := false;
        ctx.resumes := ctx.resumes + 1;
      }
    }
  }
}
