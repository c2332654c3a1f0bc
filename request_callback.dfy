/** The continuation run when a request interceptor completes: it either sends the
    message on through dispatch again, answers through the caller, or fails. */
module RequestCallback {
  import opened Http

  const TARGET_MISMATCH: string := "target service did not match with the configuration"

  /** What the continuation reads of the request context. */
  datatype CtxView = CtxView(index: int, interceptors: Option<seq<Value>>, next: bool, target: Value)

  /** The interceptor index the continuation works with. */
  function InterceptorId(ctxIndex: int, msgIndex: int): (r: int)
    ensures r >= ctxIndex && r >= msgIndex && (r == ctxIndex || r == msgIndex)
  {
    if ctxIndex >= msgIndex then ctxIndex else msgIndex
  }

  /** invokeErrorInterceptors: the error is stored and the message dispatched again. */
  function ErrorPath(error: BError, props: map<PropKey, Value>): Reaction {
    Reaction(props[InterceptorServiceError := ErrorV(error)], [Redispatch])
  }

  /** validateServiceReturnType */
  function ServiceOutcome(result: Value, id: int, interceptors: Option<seq<Value>>, target: Value): seq<Effect> {
    match interceptors
    case None => []
    case Some(list) =>
      if id < |list| then
        if id < 0 then [IndexOutOfRange(id)]
        else if result == list[id] then [Redispatch]
        else FailureEffects(BError(GENERIC_LISTENER_ERROR, NEXT_MISMATCH))
      else if result == target then [Redispatch]
      else FailureEffects(BError(GENERIC_LISTENER_ERROR, TARGET_MISMATCH))
  }

  /** validateResponseAndProceed: the index is written first, then the decision. */
  function Proceed(result: Value, caller: Value, props: map<PropKey, Value>, responded: bool, ctx: CtxView)
    : Reaction
    requires Get(props, RequestInterceptorIndex).IntV?
  {
    var id := InterceptorId(ctx.index, Get(props, RequestInterceptorIndex).i);
    var written := props[RequestInterceptorIndex := IntV(id)];
    var again := if ctx.next then [Redispatch] else [];
    if responded then Reaction(written, again)
    else if result.Nil? then Reaction(written, [ReturnResponseEffect(caller, Nil)] + again)
    else if result.ServiceV? then Reaction(written, ServiceOutcome(result, id, ctx.interceptors, ctx.target))
    else Reaction(written, [ReturnResponseEffect(caller, result)])
  }

  /** notifySuccess */
  function OnSuccess(result: Value, caller: Value, props: map<PropKey, Value>, responded: bool, ctx: CtxView)
    : Reaction
    requires result.ErrorV? || Get(props, RequestInterceptorIndex).IntV?
  {
    if result.ErrorV? then ErrorPath(result.e, props) else Proceed(result, caller, props, responded, ctx)
  }

  /** notifyFailure */
  function OnFailure(error: BError, props: map<PropKey, Value>, responded: bool): Reaction {
    if error.typeName == DESUGAR_AUTH_ERROR || responded then Reaction(props, [])
    else ErrorPath(error, props)
  }

  // ---------------------------------------------------------------------------
  // Properties

  /** An error value returned by the interceptor is stored as INTERCEPTOR_SERVICE_ERROR
      and the message is dispatched again; nothing is invoked on the caller. */
  lemma ErrorResultRedispatches(result: Value, caller: Value, props: map<PropKey, Value>, responded: bool,
                                ctx: CtxView)
    requires result.ErrorV?
    ensures var r := OnSuccess(result, caller, props, responded, ctx);
            r.props == props[InterceptorServiceError := result] && r.effects == [Redispatch]
  {
  }

  /** An authentication error or a failure after the response was sent has no effect; any
      other failure takes the error-value path. */
  lemma FailureCases(error: BError, caller: Value, props: map<PropKey, Value>, responded: bool, ctx: CtxView)
    ensures error.typeName == DESUGAR_AUTH_ERROR ==> OnFailure(error, props, responded) == Reaction(props, [])
    ensures responded ==> OnFailure(error, props, responded) == Reaction(props, [])
    ensures error.typeName != DESUGAR_AUTH_ERROR && !responded ==>
              OnFailure(error, props, responded) == OnSuccess(ErrorV(error), caller, props, responded, ctx)
  {
  }

  /** Before any decision on a non-error result, REQUEST_INTERCEPTOR_INDEX becomes the
      larger of the context's and the message's index, and no other property changes. */
  lemma IndexIsMax(result: Value, caller: Value, props: map<PropKey, Value>, responded: bool, ctx: CtxView)
    requires !result.ErrorV? && Get(props, RequestInterceptorIndex).IntV?
    ensures var stored := Get(props, RequestInterceptorIndex).i;
            var r := OnSuccess(result, caller, props, responded, ctx);
            && RequestInterceptorIndex in r.props
            && r.props[RequestInterceptorIndex].IntV?
            && r.props[RequestInterceptorIndex].i >= ctx.index
            && r.props[RequestInterceptorIndex].i >= stored
            && (r.props[RequestInterceptorIndex].i == ctx.index || r.props[RequestInterceptorIndex].i == stored)
            && r.props.Keys == props.Keys + {RequestInterceptorIndex}
            && forall k :: k in props && k != RequestInterceptorIndex ==> r.props[k] == props[k]
  {
  }

  /** Once the response has been sent, the only possible effect is one dispatch again,
      issued exactly when next() was called. */
  lemma RespondedOnlyRedispatch(result: Value, caller: Value, props: map<PropKey, Value>, ctx: CtxView)
    requires !result.ErrorV? && Get(props, RequestInterceptorIndex).IntV?
    ensures OnSuccess(result, caller, props, true, ctx).effects == if ctx.next then [Redispatch] else []
  {
  }

  /** A null result answers once through returnResponse(null), then dispatches again
      exactly when next() was called. */
  lemma NullResultReturnsOnce(caller: Value, props: map<PropKey, Value>, ctx: CtxView)
    requires Get(props, RequestInterceptorIndex).IntV?
    ensures var r := OnSuccess(Nil, caller, props, false, ctx);
            && |r.effects| >= 1 && r.effects[0] == Invoke(caller, ReturnResponse, ReturnFeed(Nil, Nil))
            && Count(r.effects, IsInvoke) == 1
            && Count(r.effects, IsRedispatch) == (if ctx.next then 1 else 0)
  {
    var r := OnSuccess(Nil, caller, props, false, ctx);
    assert r.effects[1..] == if ctx.next then [Redispatch] else [];
  }

  /** A service value with an index inside the list dispatches again exactly when it is
      the configured interceptor at that index; otherwise entities are released and the
      next-interceptor mismatch failure follows. */
  lemma ServiceInRange(result: Value, caller: Value, props: map<PropKey, Value>, ctx: CtxView)
    requires result.ServiceV? && Get(props, RequestInterceptorIndex).IntV? && ctx.interceptors.Some?
    requires var id := InterceptorId(ctx.index, Get(props, RequestInterceptorIndex).i);
             0 <= id < |ctx.interceptors.value|
    ensures var id := InterceptorId(ctx.index, Get(props, RequestInterceptorIndex).i);
            var e := OnSuccess(result, caller, props, false, ctx).effects;
            && (e == [Redispatch] <==> result == ctx.interceptors.value[id])
            && (result != ctx.interceptors.value[id] ==>
                  e == [ReleaseEntities, HandleFailure(BError(GENERIC_LISTENER_ERROR, NEXT_MISMATCH))])
  {
  }

  /** A service value with an index past the list is checked against the target service
      instead; with no interceptor list it has no effect. */
  lemma ServiceBeyondList(result: Value, caller: Value, props: map<PropKey, Value>, ctx: CtxView)
    requires result.ServiceV? && Get(props, RequestInterceptorIndex).IntV?
    ensures var id := InterceptorId(ctx.index, Get(props, RequestInterceptorIndex).i);
            var e := OnSuccess(result, caller, props, false, ctx).effects;
            && (ctx.interceptors.None? ==> e == [])
            && (ctx.interceptors.Some? && id >= |ctx.interceptors.value| ==>
                  && (e == [Redispatch] <==> result == ctx.target)
                  && (result != ctx.target ==>
                        e == [ReleaseEntities, HandleFailure(BError(GENERIC_LISTENER_ERROR, TARGET_MISMATCH))]))
  {
  }

  /** Any other value answers once through returnResponse(value) and is not dispatched
      again. */
  lemma OtherValueReturns(result: Value, caller: Value, props: map<PropKey, Value>, ctx: CtxView)
    requires !result.ErrorV? && !result.Nil? && !result.ServiceV? && Get(props, RequestInterceptorIndex).IntV?
    ensures OnSuccess(result, caller, props, false, ctx).effects == [Invoke(caller, ReturnResponse, ReturnFeed(result, Nil))]
  {
  }

  /** Whatever the outcome, the message is dispatched again at most once, the caller is
      invoked at most once, a failure never comes with a dispatch, and every failure
      comes right after the entities are released. */
  lemma {:induction false} AtMostOneOfEach(result: Value, caller: Value, props: map<PropKey, Value>,
                                           responded: bool, ctx: CtxView)
    requires result.ErrorV? || Get(props, RequestInterceptorIndex).IntV?
    ensures var e := OnSuccess(result, caller, props, responded, ctx).effects;
            && Count(e, IsRedispatch) <= 1 && Count(e, IsInvoke) <= 1
            && (Count(e, IsFailure) > 0 ==> Count(e, IsRedispatch) == 0)
            && forall i :: 0 <= i < |e| && e[i].HandleFailure? ==> i > 0 && e[i - 1].ReleaseEntities?
  {
    var e := OnSuccess(result, caller, props, responded, ctx).effects;
    SuccessShaped(result, caller, props, responded, ctx);
    ShapedCounts(e);
  }

  /** The effect sequences the continuation can issue. */
  predicate Shaped(e: seq<Effect>) {
    || e == [] || e == [Redispatch]
    || (|e| == 1 && (e[0].Invoke? || e[0].IndexOutOfRange?))
    || (|e| == 2 && e[0].Invoke? && e[1] == Redispatch)
    || (|e| == 2 && e[0] == ReleaseEntities && e[1].HandleFailure?)
  }

  lemma SuccessShaped(result: Value, caller: Value, props: map<PropKey, Value>, responded: bool, ctx: CtxView)
    requires result.ErrorV? || Get(props, RequestInterceptorIndex).IntV?
    ensures Shaped(OnSuccess(result, caller, props, responded, ctx).effects)
  {
    if !result.ErrorV? {
      var id := InterceptorId(ctx.index, Get(props, RequestInterceptorIndex).i);
      var e := Proceed(result, caller, props, responded, ctx).effects;
      var again: seq<Effect> := if ctx.next then [Redispatch] else [];
      if responded {
        assert e == again;
      } else if result.Nil? {
        assert e == [ReturnResponseEffect(caller, Nil)] + again;
      } else if result.ServiceV? {
        assert e == ServiceOutcome(result, id, ctx.interceptors, ctx.target);
        ServiceShaped(result, id, ctx.interceptors, ctx.target);
      }
    }
  }

  lemma ServiceShaped(result: Value, id: int, interceptors: Option<seq<Value>>, target: Value)
    ensures Shaped(ServiceOutcome(result, id, interceptors, target))
  {
    if interceptors.Some? {
      var list := interceptors.value;
      if id < |list| && 0 <= id && result != list[id] {
        assert ServiceOutcome(result, id, interceptors, target) == FailureEffects(BError(GENERIC_LISTENER_ERROR, NEXT_MISMATCH));
      } else if id >= |list| && result != target {
        assert ServiceOutcome(result, id, interceptors, target) == FailureEffects(BError(GENERIC_LISTENER_ERROR, TARGET_MISMATCH));
      }
    }
  }

  lemma ShapedCounts(e: seq<Effect>)
    requires Shaped(e)
    ensures && Count(e, IsRedispatch) <= 1 && Count(e, IsInvoke) <= 1
            && (Count(e, IsFailure) > 0 ==> Count(e, IsRedispatch) == 0)
            && forall i :: 0 <= i < |e| && e[i].HandleFailure? ==> i > 0 && e[i - 1].ReleaseEntities?
  {
    if |e| == 2 {
      assert e[1..][1..] == [];
    } else if |e| == 1 {
      assert e[1..] == [];
    }
  }

  // ---------------------------------------------------------------------------
  // The continuation object

  /** HttpRequestInterceptorUnitCallback over one inbound message; `effects` logs the
      asynchronous calls it issues. */
  class Callback {
    const msg: Message
    const requestCtx: RequestContext?
    const caller: Value
    var effects: seq<Effect>

    /** The context and the caller are read from the message when the callback is made. */
    constructor (msg: Message)
      requires ObjectOrAbsent(msg.Prop(Caller))
      ensures this.msg == msg && requestCtx == msg.requestContext && caller == msg.Prop(Caller)
      ensures effects == []
    {
      this.msg := msg;
      requestCtx := msg.requestContext;
      caller := msg.Prop(Caller);
      effects := [];
    }

    /** The native data of the request context the continuation reads. */
    function View(): CtxView
      reads requestCtx
      requires requestCtx != null && requestCtx.requestIndex.Some?
    {
      CtxView(requestCtx.requestIndex.value, requestCtx.interceptors, requestCtx.next, requestCtx.targetService)
    }

    /** TARGET_SERVICE of the request context; only read once the index is past the
        interceptor list. */
    function Target(): Value
      reads requestCtx
    {
      if requestCtx == null then Nil else requestCtx.targetService
    }

    /** sendRequestToNextService */
    method SendRequestToNextService()
      modifies this`effects
      ensures effects == old(effects) + [Redispatch]
    {
      effects := effects + [Redispatch];
    }

    /** sendFailureResponse; it is also what the callback of an invoked caller method does
      when that method fails. */
    method SendFailureResponse(error: BError)
      modifies this`effects
      ensures effects == old(effects) + FailureEffects(error)
    {
      effects := effects + [ReleaseEntities];
      effects := effects + [HandleFailure(error)];
    }

    /** returnResponse */
    method ReturnResponse(result: Value)
      modifies this`effects
      ensures effects == old(effects) + [ReturnResponseEffect(caller, result)]
    {
      var paramFeed := NewReturnFeed(result, Nil);
      effects := effects + [Invoke(caller, BalMethod.ReturnResponse, paramFeed[..])];
    }

    /** returnErrorResponse: the message's status code in slot 4. */
    method ReturnErrorResponse(error: Value)
      modifies this`effects
      ensures effects == old(effects) + [ReturnErrorResponseEffect(caller, error, msg.statusCode)]
    {
      var paramFeed := NewReturnFeed(error, IntV(msg.statusCode));
      effects := effects + [Invoke(caller, BalMethod.ReturnErrorResponse, paramFeed[..])];
    }

    /** invokeErrorInterceptors */
    method InvokeErrorInterceptors(error: BError)
      modifies this`effects, msg`props
      ensures var r := ErrorPath(error, old(msg.props));
              msg.props == r.props && effects == old(effects) + r.effects
    {
      msg.props := msg.props[InterceptorServiceError := ErrorV(error)];
      SendRequestToNextService();
    }

    /** validateServiceReturnType */
    method ValidateServiceReturnType(result: Value, interceptorId: int, interceptors: Option<seq<Value>>)
      requires interceptors.Some? && interceptorId >= |interceptors.value| ==> requestCtx != null
      modifies this`effects
      ensures effects == old(effects) + ServiceOutcome(result, interceptorId, interceptors, Target())
    {
      if interceptors.Some? {
        if interceptorId < |interceptors.value| {
          if interceptorId < 0 {
            effects := effects + [IndexOutOfRange(interceptorId)];
            return;
          }
          var interceptor := interceptors.value[interceptorId];
          if result == interceptor {
            SendRequestToNextService();
          } else {
            SendFailureResponse(BError(GENERIC_LISTENER_ERROR, NEXT_MISMATCH));
          }
        } else {
          var targetService := requestCtx.targetService;
          if result == targetService {
            SendRequestToNextService();
          } else {
            SendFailureResponse(BError(GENERIC_LISTENER_ERROR, TARGET_MISMATCH));
          }
        }
      }
    }

    /** validateResponseAndProceed */
    method ValidateResponseAndProceed(result: Value)
      requires requestCtx != null && requestCtx.requestIndex.Some? && msg.Prop(RequestInterceptorIndex).IntV?
      modifies this`effects, msg`props
      ensures var r := Proceed(result, caller, old(msg.props), msg.responded, View());
              msg.props == r.props && effects == old(effects) + r.effects
    {
      var interceptorId := InterceptorId(requestCtx.requestIndex.value, msg.Prop(RequestInterceptorIndex).i);
      msg.props := msg.props[RequestInterceptorIndex := IntV(interceptorId)];
      var interceptors := requestCtx.interceptors;
      var nextCalled := requestCtx.next;
      if msg.responded {
        if nextCalled {
          SendRequestToNextService();
        }
        return;
      }
      if result.Nil? {
        ReturnResponse(Nil);
        if nextCalled {
          SendRequestToNextService();
          return;
        }
        return;
      }
      if result.ServiceV? {
        ValidateServiceReturnType(result, interceptorId, interceptors);
      } else {
        ReturnResponse(result);
      }
    }

    /** notifySuccess */
    method NotifySuccess(result: Value)
      requires result.ErrorV? || (requestCtx != null && requestCtx.requestIndex.Some? && msg.Prop(RequestInterceptorIndex).IntV?)
      modifies this`effects, msg`props
      ensures requestCtx != null && requestCtx.requestIndex.Some? ==>
                var r := OnSuccess(result, caller, old(msg.props), msg.responded, View());
                msg.props == r.props && effects == old(effects) + r.effects
      ensures result.ErrorV? ==>
                var r := ErrorPath(result.e, old(msg.props));
                msg.props == r.props && effects == old(effects) + r.effects
    {
      if result.ErrorV? {
        InvokeErrorInterceptors(result.e);
        return;
      }
      ValidateResponseAndProceed(result);
    }

    /** notifyFailure */
    method NotifyFailure(error: BError)
      modifies this`effects, msg`props
      ensures var r := OnFailure(error, old(msg.props), msg.responded);
              msg.props == r.props && effects == old(effects) + r.effects
    {
      if error.typeName == DESUGAR_AUTH_ERROR {
        return;
      }
      if msg.responded {
        return;
      }
      InvokeErrorInterceptors(error);
    }
  }
}
