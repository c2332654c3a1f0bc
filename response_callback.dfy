/** The continuation run when a response interceptor completes: it either forwards the
    response to the next stage, answers through the caller, or fails. It never
    dispatches the message again. */
module ResponseCallback {
  import opened Http

  /** What the continuation reads of the request context. */
  datatype CtxView = CtxView(index: int, interceptors: Option<seq<Value>>)

  /** The interceptor index the continuation works with. */
  function InterceptorId(ctxIndex: int, msgIndex: int): (r: int)
    ensures r <= ctxIndex && r <= msgIndex && (r == ctxIndex || r == msgIndex)
  {
    if ctxIndex <= msgIndex then ctxIndex else msgIndex
  }

  /** invokeErrorInterceptors: the error is stored and returnErrorResponse is invoked with
      the message's status code. */
  function ErrorPath(error: BError, caller: Value, props: map<PropKey, Value>, statusCode: int): Reaction {
    Reaction(props[InterceptorServiceError := ErrorV(error)], [ReturnErrorResponseEffect(caller, ErrorV(error), statusCode)])
  }

  /** validateServiceReturnType */
  function ServiceOutcome(result: Value, id: int, interceptors: Option<seq<Value>>, caller: Value, response: Value)
    : seq<Effect>
  {
    match interceptors
    case None => []
    case Some(list) =>
      if id < |list| then
        if id < 0 then [IndexOutOfRange(id)]
        else if result == list[id] then [ForwardResponse(caller, response)]
        else FailureEffects(BError(GENERIC_LISTENER_ERROR, NEXT_MISMATCH))
      else []
  }

  /** validateResponseAndProceed: the index is written first, then the decision. */
  function Proceed(result: Value, caller: Value, response: Value, props: map<PropKey, Value>, responded: bool,
                   ctx: CtxView): Reaction
    requires Get(props, ResponseInterceptorIndex).IntV?
  {
    var id := InterceptorId(ctx.index, Get(props, ResponseInterceptorIndex).i);
    var written := props[ResponseInterceptorIndex := IntV(id)];
    if responded then Reaction(written, [])
    else if result.Nil? then Reaction(written[ResponseInterceptorIndex := IntV(-1)], [ForwardResponse(caller, response)])
    else if result.ServiceV? then Reaction(written, ServiceOutcome(result, id, ctx.interceptors, caller, response))
    else Reaction(written, [ReturnResponseEffect(caller, result)])
  }

  /** notifySuccess */
  function OnSuccess(result: Value, caller: Value, response: Value, props: map<PropKey, Value>, statusCode: int,
                     responded: bool, ctx: CtxView): Reaction
    requires result.ErrorV? || Get(props, ResponseInterceptorIndex).IntV?
  {
    if result.ErrorV? then ErrorPath(result.e, caller, props, statusCode)
    else Proceed(result, caller, response, props, responded, ctx)
  }

  /** notifyFailure: no check of whether the response was already sent. */
  function OnFailure(error: BError, caller: Value, props: map<PropKey, Value>, statusCode: int): Reaction {
    if error.typeName == DESUGAR_AUTH_ERROR then Reaction(props, [])
    else ErrorPath(error, caller, props, statusCode)
  }

  // ---------------------------------------------------------------------------
  // Properties

  /** An error value returned by the interceptor is stored as INTERCEPTOR_SERVICE_ERROR and
      answered through returnErrorResponse carrying the current status code. */
  lemma ErrorResultReturnsErrorResponse(result: Value, caller: Value, response: Value, props: map<PropKey, Value>,
                                        statusCode: int, responded: bool, ctx: CtxView)
    requires result.ErrorV?
    ensures var r := OnSuccess(result, caller, response, props, statusCode, responded, ctx);
            && r.props == props[InterceptorServiceError := result]
            && r.effects == [Invoke(caller, ReturnErrorResponse, ReturnFeed(result, IntV(statusCode)))]
  {
  }

  /** An authentication error has no effect; any other failure takes the error-value path,
      whether or not the response was already sent. */
  lemma FailureCases(error: BError, caller: Value, response: Value, props: map<PropKey, Value>, statusCode: int,
                     responded: bool, ctx: CtxView)
    ensures error.typeName == DESUGAR_AUTH_ERROR ==> OnFailure(error, caller, props, statusCode) == Reaction(props, [])
    ensures error.typeName != DESUGAR_AUTH_ERROR ==>
              OnFailure(error, caller, props, statusCode)
              == OnSuccess(ErrorV(error), caller, response, props, statusCode, responded, ctx)
  {
  }

  /** Before any decision on a non-error result, RESPONSE_INTERCEPTOR_INDEX becomes the
      smaller of the context's and the message's index (reset to -1 afterwards only for a
      null result that goes on), and no other property changes. */
  lemma IndexIsMin(result: Value, caller: Value, response: Value, props: map<PropKey, Value>, statusCode: int,
                   responded: bool, ctx: CtxView)
    requires !result.ErrorV? && Get(props, ResponseInterceptorIndex).IntV?
    ensures var stored := Get(props, ResponseInterceptorIndex).i;
            var r := OnSuccess(result, caller, response, props, statusCode, responded, ctx);
            && r.props.Keys == props.Keys + {ResponseInterceptorIndex}
            && (forall k :: k in props && k != ResponseInterceptorIndex ==> r.props[k] == props[k])
            && (!(result.Nil? && !responded) ==>
                  && r.props[ResponseInterceptorIndex].IntV?
                  && r.props[ResponseInterceptorIndex].i <= ctx.index
                  && r.props[ResponseInterceptorIndex].i <= stored
                  && (r.props[ResponseInterceptorIndex].i == ctx.index || r.props[ResponseInterceptorIndex].i == stored))
  {
  }

  /** Once the response has been sent, nothing happens after the index write. */
  lemma RespondedDoesNothing(result: Value, caller: Value, response: Value, props: map<PropKey, Value>,
                             statusCode: int, ctx: CtxView)
    requires !result.ErrorV? && Get(props, ResponseInterceptorIndex).IntV?
    ensures OnSuccess(result, caller, response, props, statusCode, true, ctx).effects == []
  {
  }

  /** A null result resets the message's index to -1 and forwards the response once. */
  lemma NullResultForwards(caller: Value, response: Value, props: map<PropKey, Value>, statusCode: int,
                           ctx: CtxView)
    requires Get(props, ResponseInterceptorIndex).IntV?
    ensures var r := OnSuccess(Nil, caller, response, props, statusCode, false, ctx);
            && r.props[ResponseInterceptorIndex] == IntV(-1)
            && r.effects == [ForwardResponse(caller, response)]
  {
  }

  /** A service value with an index inside the list forwards exactly when it is the
      configured interceptor at that index; otherwise entities are released and the
      mismatch failure follows. */
  lemma ServiceInRange(result: Value, caller: Value, response: Value, props: map<PropKey, Value>,
                       statusCode: int, ctx: CtxView)
    requires result.ServiceV? && Get(props, ResponseInterceptorIndex).IntV? && ctx.interceptors.Some?
    requires var id := InterceptorId(ctx.index, Get(props, ResponseInterceptorIndex).i);
             0 <= id < |ctx.interceptors.value|
    ensures var id := InterceptorId(ctx.index, Get(props, ResponseInterceptorIndex).i);
            var e := OnSuccess(result, caller, response, props, statusCode, false, ctx).effects;
            && (e == [ForwardResponse(caller, response)] <==> result == ctx.interceptors.value[id])
            && (result != ctx.interceptors.value[id] ==>
                  e == [ReleaseEntities, HandleFailure(BError(GENERIC_LISTENER_ERROR, NEXT_MISMATCH))])
  {
  }

  /** A service value with no interceptor list, or an index past it, has no effect. */
  lemma ServiceOutsideListDoesNothing(result: Value, caller: Value, response: Value, props: map<PropKey, Value>,
                                      statusCode: int, ctx: CtxView)
    requires result.ServiceV? && Get(props, ResponseInterceptorIndex).IntV?
    requires ctx.interceptors.None?
             || InterceptorId(ctx.index, Get(props, ResponseInterceptorIndex).i) >= |ctx.interceptors.value|
    ensures OnSuccess(result, caller, response, props, statusCode, false, ctx).effects == []
  {
  }

  /** Any other value answers once through returnResponse(value) and is not forwarded. */
  lemma OtherValueReturns(result: Value, caller: Value, response: Value, props: map<PropKey, Value>,
                          statusCode: int, ctx: CtxView)
    requires !result.ErrorV? && !result.Nil? && !result.ServiceV? && Get(props, ResponseInterceptorIndex).IntV?
    ensures OnSuccess(result, caller, response, props, statusCode, false, ctx).effects
            == [Invoke(caller, ReturnResponse, ReturnFeed(result, Nil))]
  {
  }

  /** Whatever the outcome, the message is never dispatched again, at most one of a
      forward and a caller invocation happens, and every failure comes right after the
      entities are released. */
  lemma {:induction false} NeverRedispatches(result: Value, caller: Value, response: Value,
                                             props: map<PropKey, Value>, statusCode: int, responded: bool,
                                             ctx: CtxView)
    requires result.ErrorV? || Get(props, ResponseInterceptorIndex).IntV?
    ensures var e := OnSuccess(result, caller, response, props, statusCode, responded, ctx).effects;
            && Count(e, IsRedispatch) == 0
            && Count(e, IsForward) + Count(e, IsInvoke) <= 1
            && forall i :: 0 <= i < |e| && e[i].HandleFailure? ==> i > 0 && e[i - 1].ReleaseEntities?
  {
    SuccessShaped(result, caller, response, props, statusCode, responded, ctx);
    ShapedCounts(OnSuccess(result, caller, response, props, statusCode, responded, ctx).effects);
  }

  /** The effect sequences the continuation can issue. */
  predicate Shaped(e: seq<Effect>) {
    || e == []
    || (|e| == 1 && (e[0].ForwardResponse? || e[0].Invoke? || e[0].IndexOutOfRange?))
    || (|e| == 2 && e[0] == ReleaseEntities && e[1].HandleFailure?)
  }

  lemma SuccessShaped(result: Value, caller: Value, response: Value, props: map<PropKey, Value>, statusCode: int,
                      responded: bool, ctx: CtxView)
    requires result.ErrorV? || Get(props, ResponseInterceptorIndex).IntV?
    ensures Shaped(OnSuccess(result, caller, response, props, statusCode, responded, ctx).effects)
  {
    if !result.ErrorV? {
      var id := InterceptorId(ctx.index, Get(props, ResponseInterceptorIndex).i);
      var e := Proceed(result, caller, response, props, responded, ctx).effects;
      if responded {
        assert e == [];
      } else if result.Nil? {
        assert e == [ForwardResponse(caller, response)];
      } else if result.ServiceV? {
        assert e == ServiceOutcome(result, id, ctx.interceptors, caller, response);
        ServiceShaped(result, id, ctx.interceptors, caller, response);
      } else {
        assert e == [ReturnResponseEffect(caller, result)];
      }
    }
  }

  lemma ServiceShaped(result: Value, id: int, interceptors: Option<seq<Value>>, caller: Value, response: Value)
    ensures Shaped(ServiceOutcome(result, id, interceptors, caller, response))
  {
    if interceptors.Some? {
      var list := interceptors.value;
      if 0 <= id < |list| && result != list[id] {
        assert ServiceOutcome(result, id, interceptors, caller, response)
               == FailureEffects(BError(GENERIC_LISTENER_ERROR, NEXT_MISMATCH));
      }
    }
  }

  lemma ShapedCounts(e: seq<Effect>)
    requires Shaped(e)
    ensures && Count(e, IsRedispatch) == 0
            && Count(e, IsForward) + Count(e, IsInvoke) <= 1
            && forall i :: 0 <= i < |e| && e[i].HandleFailure? ==> i > 0 && e[i - 1].ReleaseEntities?
  {
    if |e| == 2 {
      assert e[1..][1..] == [];
    } else if |e| == 1 {
      assert e[1..] == [];
    }
  }

  // ---------------------------------------------------------------------------
  // The continuation object

  /** HttpResponseInterceptorUnitCallback over one inbound message, its caller and the
      response; `effects` logs the asynchronous calls it issues. */
  class Callback {
    const msg: Message
    const requestCtx: RequestContext?
    const caller: Value
    const response: Value
    var effects: seq<Effect>

    /** The context is read from the message when the callback is made. */
    constructor (msg: Message, caller: Value, response: Value)
      ensures this.msg == msg && requestCtx == msg.requestContext
      ensures this.caller == caller && this.response == response && effects == []
    {
      this.msg := msg;
      requestCtx := msg.requestContext;
      this.caller := caller;
      this.response := response;
      effects := [];
    }

    /** The native data of the request context the continuation reads. */
    function View(): CtxView
      reads requestCtx
      requires requestCtx != null && requestCtx.responseIndex.Some?
    {
      CtxView(requestCtx.responseIndex.value, requestCtx.interceptors)
    }

    /** sendResponseToNextService */
    method SendResponseToNextService()
      modifies this`effects
      ensures effects == old(effects) + [ForwardResponse(caller, response)]
    {
      effects := effects + [ForwardResponse(caller, response)];
    }

    /** sendFailureResponse; it is also what the callback of an invoked caller method does
        when that method fails. */
    method SendFailureResponse(error: BError)
      modifies this`effects
      ensures effects == old(effects) + FailureEffects(error)
    {
      effects := effects + [ReleaseEntities];
      effects := effects + [HandleFailure(error)];
    }

    /** returnResponse */
    method ReturnResponse(result: Value)
      modifies this`effects
      ensures effects == old(effects) + [ReturnResponseEffect(caller, result)]
    {
      var paramFeed := NewReturnFeed(result, Nil);
      effects := effects + [Invoke(caller, BalMethod.ReturnResponse, paramFeed[..])];
    }

    /** returnErrorResponse: the message's status code in slot 4. */
    method ReturnErrorResponse(error: BError)
      modifies this`effects
      ensures effects == old(effects) + [ReturnErrorResponseEffect(caller, ErrorV(error), msg.statusCode)]
    {
      var paramFeed := NewReturnFeed(ErrorV(error), IntV(msg.statusCode));
      effects := effects + [Invoke(caller, BalMethod.ReturnErrorResponse, paramFeed[..])];
    }

    /** invokeErrorInterceptors */
    method InvokeErrorInterceptors(error: BError)
      modifies this`effects, msg`props
      ensures var r := ErrorPath(error, caller, old(msg.props), msg.statusCode);
              msg.props == r.props && effects == old(effects) + r.effects
    {
      msg.props := msg.props[InterceptorServiceError := ErrorV(error)];
      ReturnErrorResponse(error);
    }

    /** validateServiceReturnType */
    method ValidateServiceReturnType(result: Value, interceptorId: int, interceptors: Option<seq<Value>>)
      modifies this`effects
      ensures effects == old(effects) + ServiceOutcome(result, interceptorId, interceptors, caller, response)
    {
      if interceptors.Some? {
        if interceptorId < |interceptors.value| {
          if interceptorId < 0 {
            effects := effects + [IndexOutOfRange(interceptorId)];
            return;
          }
          var interceptor := interceptors.value[interceptorId];
          if result == interceptor {
            SendResponseToNextService();
          } else {
            SendFailureResponse(BError(GENERIC_LISTENER_ERROR, NEXT_MISMATCH));
          }
        }
      }
    }

    /** validateResponseAndProceed */
    method ValidateResponseAndProceed(result: Value)
      requires requestCtx != null && requestCtx.responseIndex.Some? && msg.Prop(ResponseInterceptorIndex).IntV?
      modifies this`effects, msg`props
      ensures var r := Proceed(result, caller, response, old(msg.props), msg.responded, View());
              msg.props == r.props && effects == old(effects) + r.effects
    {
      var interceptorId := InterceptorId(requestCtx.responseIndex.value, msg.Prop(ResponseInterceptorIndex).i);
      msg.props := msg.props[ResponseInterceptorIndex := IntV(interceptorId)];
      var interceptors := requestCtx.interceptors;
      if msg.responded {
        return;
      }
      if result.Nil? {
        msg.props := msg.props[ResponseInterceptorIndex := IntV(-1)];
        SendResponseToNextService();
        return;
      }
      if result.ServiceV? {
        ValidateServiceReturnType(result, interceptorId, interceptors);
      } else {
        ReturnResponse(result);
      }
    }

    /** notifySuccess */
    method NotifySuccess(result: Value)
      requires result.ErrorV? || (requestCtx != null && requestCtx.responseIndex.Some? && msg.Prop(ResponseInterceptorIndex).IntV?)
      modifies this`effects, msg`props
      ensures requestCtx != null && requestCtx.responseIndex.Some? ==>
                var r := OnSuccess(result, caller, response, old(msg.props), msg.statusCode, msg.responded, View());
                msg.props == r.props && effects == old(effects) + r.effects
      ensures result.ErrorV? ==>
                var r := ErrorPath(result.e, caller, old(msg.props), msg.statusCode);
                msg.props == r.props && effects == old(effects) + r.effects
    {
      if result.ErrorV? {
        InvokeErrorInterceptors(result.e);
        return;
      }
      ValidateResponseAndProceed(result);
    }

    /** notifyFailure */
    method NotifyFailure(error: BError)
      modifies this`effects, msg`props
      ensures var r := OnFailure(error, caller, old(msg.props), msg.statusCode);
              msg.props == r.props && effects == old(effects) + r.effects
    {
      if error.typeName == DESUGAR_AUTH_ERROR {
        return;
      }
      InvokeErrorInterceptors(error);
    }
  }
}
