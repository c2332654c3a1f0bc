/** Values, message state and effect records shared by the dispatcher and the two
    interceptor continuations of the HTTP listener. */
module Http {

  datatype Option<+T> = None | Some(value: T)

  /** A computation that either succeeds or fails with the message of the exception
      the source would throw (all exception kinds collapse into one). */
  datatype Result<+T> = Ok(value: T) | Err(message: string)

  /** A Ballerina error value: the name of its error type and its message. */
  datatype BError = BError(typeName: string, message: string)

  /** Name of the error type raised when authentication/authorization has already
      answered the request (401/403). */
  const DESUGAR_AUTH_ERROR: string := "DesugarAuthError"
  /** Name of the error type of errors the listener creates itself. */
  const GENERIC_LISTENER_ERROR: string := "GenericListenerError"
  /** The placeholder error handed to a generic-error parameter when no error is carried. */
  const PLACEHOLDER_ERROR: BError := BError("error", "new error")

  /** The values that travel through the listener: Java null, boxed scalars, Ballerina
      errors, service objects, other objects, arrays, the matrix-parameter map, a
      headers object wrapping a request, and a request context. */
  datatype Value =
    | Nil
    | BoolV(b: bool)
    | IntV(i: int)
    | StrV(s: string)
    | ErrorV(e: BError)
    | ServiceV(id: nat)
    | ObjectV(id: nat)
    | ArrayV(elems: seq<Value>)
    | MatrixV(params: map<string, map<string, string>>)
    | HeadersV(request: Value)
    | CtxV(ctx: RequestContext)

  /** Keys of the inbound message's property map. */
  datatype PropKey =
    | To | RawUri | MatrixParams | BasePath | SubPath | QueryStr | RawQueryStr
    | LocalAddress | Protocol | RequestInterceptorIndex | ResponseInterceptorIndex
    | InterceptorServiceError | Interceptors | TargetService | EntityObj | Caller

  /** Property lookup; an absent key reads as null. */
  function Get(props: map<PropKey, Value>, k: PropKey): (v: Value)
    ensures k !in props ==> v == Nil
    ensures k in props ==> v == props[k]
  {
    if k in props then props[k] else Nil
  }

  /** A property that the source casts to `int` holds an int or is absent. */
  predicate IntOrAbsent(v: Value) {
    v.Nil? || v.IntV?
  }

  /** A property that the source casts to an error holds one or is absent. */
  predicate ErrorOrAbsent(v: Value) {
    v.Nil? || v.ErrorV?
  }

  /** A property that the source casts to an object holds one or is absent. */
  predicate ObjectOrAbsent(v: Value) {
    v.Nil? || v.ObjectV?
  }

  /** The caller methods the continuations invoke. */
  datatype BalMethod = ReturnResponse | ReturnErrorResponse

  /** One externally visible action of a continuation, in issue order. */
  datatype Effect =
      /** the connector listener's onMessage(requestMessage): dispatch the message again */
    | Redispatch
      /** runtime.invokeMethodAsyncSequentially(caller, method, feed) */
    | Invoke(target: Value, name: BalMethod, feed: seq<Value>)
      /** requestMessage.waitAndReleaseAllEntities() */
    | ReleaseEntities
      /** HttpUtil.handleFailure(requestMessage, error, false) */
    | HandleFailure(error: BError)
      /** Respond.nativeRespondWithDataCtx(env, caller, response, dataContext) */
    | ForwardResponse(caller: Value, response: Value)
      /** interceptors.get(index) with a negative index: the array access throws and the
          exception leaves the continuation */
    | IndexOutOfRange(index: int)

  /** The 6-slot argument feed of returnResponse/returnErrorResponse: the returned value,
      a null second argument and a fifth value, each followed by its presence flag. */
  function ReturnFeed(first: Value, fifth: Value): (feed: seq<Value>)
    ensures |feed| == 6
    ensures feed[0] == first && feed[2] == Nil && feed[4] == fifth
    ensures forall k :: 0 <= k < 3 ==> feed[2 * k + 1] == BoolV(true)
  {
    [first, BoolV(true), Nil, BoolV(true), fifth, BoolV(true)]
  }

  /** Builds the 6-slot feed slot by slot, as both continuations do. */
  method NewReturnFeed(first: Value, fifth: Value) returns (feed: array<Value>)
    ensures fresh(feed)
    ensures feed[..] == ReturnFeed(first, fifth)
  {
    feed := new Value[6](_ => Nil);
    feed[0] := first;
    feed[1] := BoolV(true);
    feed[2] := Nil;
    feed[3] := BoolV(true);
    feed[4] := fifth;
    feed[5] := BoolV(true);
  }

  /** The message of the failure raised when a returned service is not the next
      configured interceptor. */
  const NEXT_MISMATCH: string := "next interceptor service did not match with the configuration"

  /** sendFailureResponse: entities released, then the failure handled. */
  function FailureEffects(error: BError): seq<Effect> {
    [ReleaseEntities, HandleFailure(error)]
  }

  /** returnResponse(result) on the caller. */
  function ReturnResponseEffect(caller: Value, result: Value): Effect {
    Invoke(caller, ReturnResponse, ReturnFeed(result, Nil))
  }

  /** returnErrorResponse(error) on the caller, with the status code in slot 4. */
  function ReturnErrorResponseEffect(caller: Value, error: Value, statusCode: int): Effect {
    Invoke(caller, ReturnErrorResponse, ReturnFeed(error, IntV(statusCode)))
  }

  predicate IsRedispatch(e: Effect) { e.Redispatch? }
  predicate IsInvoke(e: Effect) { e.Invoke? }
  predicate IsFailure(e: Effect) { e.HandleFailure? }
  predicate IsForward(e: Effect) { e.ForwardResponse? }

  /** What a continuation does to the message: its new property map and the effects it
      issues, in order. */
  datatype Reaction = Reaction(props: map<PropKey, Value>, effects: seq<Effect>)

  /** The number of effects satisfying p. */
  function Count(effects: seq<Effect>, p: Effect -> bool): (n: nat)
    ensures n <= |effects|
    ensures n == 0 <==> forall i :: 0 <= i < |effects| ==> !p(effects[i])
  {
    if |effects| == 0 then 0 else (if p(effects[0]) then 1 else 0) + Count(effects[1..], p)
  }

  datatype InterceptorType = RequestInterceptor | ResponseInterceptor

  /** The per-request context object and the native data the listener keeps on it. */
  class RequestContext {
    /** INTERCEPTORS: the configured interceptor list, or null */
    var interceptors: Option<seq<Value>>
    /** TARGET_SERVICE */
    var targetService: Value
    /** REQUEST_CONTEXT_NEXT: whether the running interceptor called next() */
    var next: bool
    /** INTERCEPTOR_SERVICE */
    var interceptorService: Option<bool>
    /** REQUEST_INTERCEPTOR_INDEX */
    var requestIndex: Option<int>
    /** RESPONSE_INTERCEPTOR_INDEX */
    var responseIndex: Option<int>
    /** INTERCEPTOR_SERVICE_TYPE */
    var serviceType: Option<InterceptorType>

    /** A fresh context with the given interceptor list and target service, next unset and
        no index recorded yet. */
    constructor (interceptors: Option<seq<Value>>, targetService: Value)
      ensures this.interceptors == interceptors && this.targetService == targetService
      ensures !next && interceptorService.None? && requestIndex.None?
      ensures responseIndex.None? && serviceType.None?
    {
      this.interceptors := interceptors;
      this.targetService := targetService;
      next := false;
      interceptorService := None;
      requestIndex := None;
      responseIndex := None;
      serviceType := None;
    }
  }

  /** The resource arguments captured by path matching: parameter name to
      (signature index to raw segment). */
  class ResourceArguments {
    var args: map<string, map<int, string>>

    /** A new RESOURCE_ARGS holding the given arguments. */
    constructor (args: map<string, map<int, string>>)
      ensures this.args == args
    {
      this.args := args;
    }
  }

  /** The inbound message: headers, property map, status code, whether a response has
      already been sent, and its two object-valued properties (REQUEST_CONTEXT and
      RESOURCE_ARGS). */
  class Message {
    var headers: map<string, string>
    var props: map<PropKey, Value>
    var statusCode: int
    var responded: bool
    var requestContext: RequestContext?
    var resourceArgs: ResourceArguments?

    /** getProperty */
    function Prop(k: PropKey): (v: Value)
      reads this
    {
      Get(props, k)
    }
  }
}
