/** The per-request context and the positional argument feeds HttpDispatcher builds for
    resources and for remote (response-interceptor) methods. A feed has two slots per
    signature parameter: slot 2k holds the value and slot 2k+1 its presence flag. */
module ParamFeed {
  import opened Http

  /** Key of the trailing-path capture in the resource arguments, and its index. */
  const EXTRA_PATH_INFO: string := "^extra_path_info"
  const EXTRA_PATH_INDEX: int := 0

  const CAST_ERROR_PREFIX: string := "Error in casting path param : "
  /** The message of the exception `"".substring(1)` throws. */
  const EMPTY_SUBSTRING_MESSAGE: string := "begin 1, end 0, length 0"

  /** A path parameter's declared type: a scalar type tag, or an array with an element
      type tag. */
  datatype ParamType = Scalar(tag: int) | ArrayOf(elementTag: int)

  /** The type names the feed builders switch on. */
  datatype ParamKind =
    | CallerParam | RequestContextParam | GenericErrorParam | RequestParam | HeadersParam
    | QueryParams | HeaderParams | PayloadParam | ResponseParam | OtherParam

  /** A non-path parameter; `index` is the feed slot of a non-recurring parameter. */
  datatype Param = Param(kind: ParamKind, index: int)

  /** What the dispatcher reads of a resource: whether it is an interceptor resource,
      its parameter names and types, the number of leading path parameters, its
      wildcard token (or null), its other parameters, and two flags. */
  datatype Resource = Resource(
    isInterceptorResource: bool,
    paramNames: seq<string>,
    paramTypes: seq<ParamType>,
    pathParamCount: nat,
    wildcardToken: Option<string>,
    otherParams: seq<Param>,
    treatNilableAsOptional: bool,
    payloadBindingRequired: bool)

  /** A remote method's parameter handler: its parameter count and parameters. */
  datatype RemoteSignature = RemoteSignature(paramCount: nat, otherParams: seq<Param>)

  /** One slot a populateFeed collaborator (query, header or payload binding) writes. */
  datatype SlotWrite = SlotWrite(slot: int, value: Value)

  /** The casting collaborators: castParam and castParamArray (Err carries the
      exception message) and URLDecoder.decode with UTF-8 (Err is the
      IllegalArgumentException of a malformed escape). */
  datatype Casts = Casts(
    castParam: (int, string) -> Result<Value>,
    castParamArray: (int, seq<string>) -> Result<Value>,
    decode: string -> Result<string>)

  // ---------------------------------------------------------------------------
  // Request context

  /** The INTERCEPTORS property is kept only when it is an array. */
  function InterceptorsOf(v: Value): (r: Option<seq<Value>>)
    ensures r.Some? <==> v.ArrayV?
    ensures r.Some? ==> r.value == v.elems
  {
    if v.ArrayV? then Some(v.elems) else None
  }

  /** createRequestContext */
  method CreateRequestContext(msg: Message) returns (ctx: RequestContext)
    modifies msg`requestContext
    ensures fresh(ctx) && msg.requestContext == ctx
    ensures ctx.interceptors == InterceptorsOf(msg.Prop(Interceptors))
    ensures ctx.targetService == msg.Prop(TargetService)
    ensures !ctx.next && ctx.requestIndex.None? && ctx.responseIndex.None?
    ensures ctx.interceptorService.None? && ctx.serviceType.None?
  {
    ctx := new RequestContext(InterceptorsOf(msg.Prop(Interceptors)), msg.Prop(TargetService));
    msg.requestContext := ctx;
  }

  /** getRequestCtx: the cached REQUEST_CONTEXT, or a new one stored on the message. */
  method GetRequestCtx(msg: Message) returns (ctx: RequestContext)
    modifies msg`requestContext
    ensures msg.requestContext == ctx
    ensures old(msg.requestContext) != null ==> ctx == old(msg.requestContext)
    ensures old(msg.requestContext) == null ==>
              && fresh(ctx)
              && ctx.interceptors == InterceptorsOf(msg.Prop(Interceptors))
              && ctx.targetService == msg.Prop(TargetService)
              && !ctx.next && ctx.requestIndex.None? && ctx.responseIndex.None?
              && ctx.interceptorService.None? && ctx.serviceType.None?
  {
    if msg.requestContext != null {
      ctx := msg.requestContext;
    } else {
      ctx := CreateRequestContext(msg);
    }
  }

  /** Asking for the context twice yields the same object: it is created at most once. */
  method RequestCtxCreatedOnce(msg: Message) returns (first: RequestContext, second: RequestContext)
    modifies msg`requestContext
    ensures first == second && msg.requestContext == first
    ensures old(msg.requestContext) != null ==> first == old(msg.requestContext)
  {
    first := GetRequestCtx(msg);
    second := GetRequestCtx(msg);
  }

  /** populatePropertiesForRequestPath: the context's request index becomes 0 when the
      message has none, else the message's index minus one; next is reset. */
  method PopulatePropertiesForRequestPath(r: Resource, msg: Message, ctx: RequestContext)
    requires IntOrAbsent(msg.Prop(RequestInterceptorIndex))
    modifies ctx`interceptorService, ctx`requestIndex, ctx`next, ctx`serviceType
    ensures ctx.interceptorService == Some(r.isInterceptorResource)
    ensures var stored := msg.Prop(RequestInterceptorIndex);
            ctx.requestIndex == Some(if stored.Nil? then 0 else stored.i - 1)
    ensures !ctx.next && ctx.serviceType == Some(RequestInterceptor)
  {
    ctx.interceptorService := Some(r.isInterceptorResource);
    var stored := msg.Prop(RequestInterceptorIndex);
    var interceptorId := if stored.Nil? then 0 else stored.i - 1;
    ctx.requestIndex := Some(interceptorId);
    ctx.next := false;
    ctx.serviceType := Some(RequestInterceptor);
  }

  /** populatePropertiesForResponsePath: the context's response index becomes 0 when the
      message has none, else the message's index plus one; next is reset. */
  method PopulatePropertiesForResponsePath(msg: Message, ctx: RequestContext)
    requires IntOrAbsent(msg.Prop(ResponseInterceptorIndex))
    modifies ctx`interceptorService, ctx`responseIndex, ctx`next, ctx`serviceType
    ensures ctx.interceptorService == Some(true)
    ensures var stored := msg.Prop(ResponseInterceptorIndex);
            ctx.responseIndex == Some(if stored.Nil? then 0 else stored.i + 1)
    ensures !ctx.next && ctx.serviceType == Some(ResponseInterceptor)
  {
    ctx.interceptorService := Some(true);
    var stored := msg.Prop(ResponseInterceptorIndex);
    var interceptorId := if stored.Nil? then 0 else stored.i + 1;
    ctx.responseIndex := Some(interceptorId);
    ctx.serviceType := Some(ResponseInterceptor);
    ctx.next := false;
  }

  // ---------------------------------------------------------------------------
  // Wildcard token

  /** The trailing-path capture is present, as updateWildcardToken reads it. */
  predicate WildcardReady(token: Option<string>, args: map<string, map<int, string>>) {
    token.Some? ==> EXTRA_PATH_INFO in args && EXTRA_PATH_INDEX in args[EXTRA_PATH_INFO]
  }

  /** The arguments after updateWildcardToken: with a token, its map gets the trailing
      segment at the wildcard index, other entries of it and other tokens unchanged. */
  function WildcardFolded(token: Option<string>, wildcardIndex: int, args: map<string, map<int, string>>)
    : (r: map<string, map<int, string>>)
    requires WildcardReady(token, args)
    ensures token.None? ==> r == args
    ensures token.Some? ==>
              var t, segment := token.value, args[EXTRA_PATH_INFO][EXTRA_PATH_INDEX];
              && r.Keys == args.Keys + {t}
              && wildcardIndex in r[t] && r[t][wildcardIndex] == segment
              && (t in args ==> r[t].Keys == args[t].Keys + {wildcardIndex})
              && (t in args ==> forall j :: j in args[t] && j != wildcardIndex ==> r[t][j] == args[t][j])
              && (t !in args ==> r[t] == map[wildcardIndex := segment])
              && (forall k :: k in args && k != t ==> r[k] == args[k])
  {
    match token
    case None => args
    case Some(t) =>
      var segment := args[EXTRA_PATH_INFO][EXTRA_PATH_INDEX];
      if t in args then args[t := args[t][wildcardIndex := segment]]
      else args[t := map[wildcardIndex := segment]]
  }

  /** updateWildcardToken, on the shared resource-arguments object. */
  method UpdateWildcardToken(token: Option<string>, wildcardIndex: int, a: ResourceArguments)
    requires WildcardReady(token, a.args)
    modifies a
    ensures a.args == WildcardFolded(token, wildcardIndex, old(a.args))
  {
    if token.None? {
      return;
    }
    var segment := a.args[EXTRA_PATH_INFO][EXTRA_PATH_INDEX];
    if token.value in a.args {
      var indexValueMap := a.args[token.value];
      a.args := a.args[token.value := indexValueMap[wildcardIndex := segment]];
    } else {
      a.args := a.args[token.value := map[wildcardIndex := segment]];
    }
  }

  // ---------------------------------------------------------------------------
  // String.split("/")

  /** Every '/'-separated piece of s, empty pieces included. */
  function SplitAll(s: string): (r: seq<string>)
    ensures |r| >= 1
    ensures forall i :: 0 <= i < |r| ==> '/' !in r[i]
    ensures '/' !in s ==> r == [s]
  {
    if |s| == 0 then [""]
    else
      var rest := SplitAll(s[1..]);
      if s[0] == '/' then [""] + rest
      else
        assert '/' !in s ==> rest == [s[1..]] && [s[0]] + s[1..] == s;
        [[s[0]] + rest[0]] + rest[1..]
  }

  /** Pieces joined with '/'. */
  function Join(parts: seq<string>): string {
    if |parts| == 0 then ""
    else if |parts| == 1 then parts[0]
    else parts[0] + "/" + Join(parts[1..])
  }

  /** Splitting and joining again gives back the string. */
  lemma {:induction false} JoinSplitAll(s: string)
    ensures Join(SplitAll(s)) == s
  {
    if |s| > 0 {
      JoinSplitAll(s[1..]);
      var rest := SplitAll(s[1..]);
      if s[0] == '/' {
        assert SplitAll(s) == [""] + rest;
        assert ([""] + rest)[1..] == rest;
        assert Join(SplitAll(s)) == "" + "/" + Join(rest);
        assert s == "/" + s[1..];
      } else {
        var parts := [[s[0]] + rest[0]] + rest[1..];
        assert parts[1..] == rest[1..];
        if |rest| == 1 {
          assert Join(parts) == [s[0]] + rest[0];
        } else {
          assert Join(rest) == rest[0] + "/" + Join(rest[1..]);
          assert Join(parts) == [s[0]] + rest[0] + "/" + Join(rest[1..]);
        }
        assert s == [s[0]] + s[1..];
      }
    }
  }

  /** Trailing empty pieces removed. */
  function DropTrailingEmpty(parts: seq<string>): (r: seq<string>)
    ensures |r| <= |parts| && r == parts[..|r|]
    ensures |r| == 0 || r[|r| - 1] != ""
    ensures forall i :: |r| <= i < |parts| ==> parts[i] == ""
  {
    if |parts| == 0 || parts[|parts| - 1] != "" then parts
    else DropTrailingEmpty(parts[..|parts| - 1])
  }

  /** Java's String.split("/"): the input itself when it has no '/', otherwise all
      pieces with the trailing empty ones removed. */
  function JavaSplit(s: string): (r: seq<string>)
    ensures forall i :: 0 <= i < |r| ==> '/' !in r[i]
    ensures '/' !in s ==> r == [s]
    ensures '/' in s ==> |r| == 0 || r[|r| - 1] != ""
  {
    if '/' !in s then [s] else DropTrailingEmpty(SplitAll(s))
  }

  /** The pieces of split, followed by the empty pieces it dropped, join back to the
      input. */
  lemma JavaSplitRestores(s: string)
    ensures var all := SplitAll(s);
            var r := JavaSplit(s);
            && |r| <= |all| && r == all[..|r|]
            && (forall i :: |r| <= i < |all| ==> all[i] == "")
            && Join(all) == s
  {
    JoinSplitAll(s);
  }

  // ---------------------------------------------------------------------------
  // Path parameters

  /** The value one path parameter contributes: the decoded raw segment cast to the
      declared type; an array type drops the first character and splits on '/'. A
      decoding failure escapes as it is; a cast failure is reported with the cast prefix. */
  function PathParamValue(t: ParamType, raw: string, casts: Casts): Result<Value> {
    match casts.decode(raw)
    case Err(m) => Err(m)
    case Ok(v) => CastDecoded(t, v, casts)
  }

  /** A path parameter's value: a decoding failure escapes unchanged, a cast failure
      carries the cast prefix, and a success is the collaborator's cast of the decoded
      text (for an array type, of the pieces of its text after the first character). */
  lemma PathParamValueCases(t: ParamType, raw: string, casts: Casts)
    ensures var r := PathParamValue(t, raw, casts);
            && (casts.decode(raw).Err? ==> r == Err(casts.decode(raw).message))
            && (casts.decode(raw).Ok? && r.Err? ==>
                  |CAST_ERROR_PREFIX| <= |r.message| && r.message[..|CAST_ERROR_PREFIX|] == CAST_ERROR_PREFIX)
            && (casts.decode(raw).Ok? && t.Scalar? && r.Ok? ==>
                  r == casts.castParam(t.tag, casts.decode(raw).value))
            && (casts.decode(raw).Ok? && t.ArrayOf? && r.Ok? ==>
                  var v := casts.decode(raw).value;
                  |v| > 0 && r == casts.castParamArray(t.elementTag, JavaSplit(v[1..])))
  {
  }

  /** The guarded cast of a decoded path argument; its failure carries the cast prefix. */
  function CastDecoded(t: ParamType, v: string, casts: Casts): Result<Value> {
    var cast := match t
      case ArrayOf(tag) =>
        if |v| == 0 then Err(EMPTY_SUBSTRING_MESSAGE) else casts.castParamArray(tag, JavaSplit(v[1..]))
      case Scalar(tag) => casts.castParam(tag, v);
    match cast
    case Err(m) => Err(CAST_ERROR_PREFIX + m)
    case Ok(x) => Ok(x)
  }

  /** The first `count` path parameters have a raw argument under their name, at their
      own signature index. */
  predicate PathArgsPresent(r: Resource, args: map<string, map<int, string>>, count: nat) {
    && count <= |r.paramNames| && count <= |r.paramTypes|
    && forall k :: 0 <= k < count ==> r.paramNames[k] in args && k in args[r.paramNames[k]]
  }

  function RawPathArg(r: Resource, args: map<string, map<int, string>>, k: nat): string
    requires PathArgsPresent(r, args, k + 1)
  {
    args[r.paramNames[k]][k]
  }

  /** The values of the first `count` path parameters, or the first parameter's error. */
  function PathValues(r: Resource, args: map<string, map<int, string>>, casts: Casts, count: nat)
    : (res: Result<seq<Value>>)
    requires PathArgsPresent(r, args, count)
    ensures res.Ok? ==> |res.value| == count
  {
    if count == 0 then Ok([])
    else
      match PathValues(r, args, casts, count - 1)
      case Err(m) => Err(m)
      case Ok(vs) =>
        match PathParamValue(r.paramTypes[count - 1], RawPathArg(r, args, count - 1), casts)
        case Err(m) => Err(m)
        case Ok(v) => Ok(vs + [v])
  }

  /** On success, value k is path parameter k's own decoded and cast value. */
  lemma {:induction false} PathValuesAt(r: Resource, args: map<string, map<int, string>>, casts: Casts,
                                        count: nat, k: nat)
    requires PathArgsPresent(r, args, count) && k < count
    requires PathValues(r, args, casts, count).Ok?
    ensures PathParamValue(r.paramTypes[k], RawPathArg(r, args, k), casts)
            == Ok(PathValues(r, args, casts, count).value[k])
  {
    assert PathValues(r, args, casts, count - 1).Ok?;
    if k < count - 1 {
      PathValuesAt(r, args, casts, count - 1, k);
    }
  }

  /** On failure, the error is that of the first path parameter that fails, and every
      parameter before it succeeds. */
  lemma {:induction false} PathValuesFailure(r: Resource, args: map<string, map<int, string>>, casts: Casts,
                                             count: nat)
    requires PathArgsPresent(r, args, count)
    requires PathValues(r, args, casts, count).Err?
    ensures exists k :: 0 <= k < count
              && PathParamValue(r.paramTypes[k], RawPathArg(r, args, k), casts)
                 == Err(PathValues(r, args, casts, count).message)
              && forall j :: 0 <= j < k ==> PathParamValue(r.paramTypes[j], RawPathArg(r, args, j), casts).Ok?
  {
    var prefix := PathValues(r, args, casts, count - 1);
    if prefix.Err? {
      PathValuesFailure(r, args, casts, count - 1);
    } else {
      forall j | 0 <= j < count - 1
        ensures PathParamValue(r.paramTypes[j], RawPathArg(r, args, j), casts).Ok?
      {
        PathValuesAt(r, args, casts, count - 1, j);
      }
      assert PathParamValue(r.paramTypes[count - 1], RawPathArg(r, args, count - 1), casts)
             == Err(PathValues(r, args, casts, count).message);
    }
  }

  /** A failure among the first k path parameters is the failure of any longer prefix. */
  lemma {:induction false} PathValuesFailureSticks(r: Resource, args: map<string, map<int, string>>,
                                                   casts: Casts, k: nat, count: nat)
    requires k <= count && PathArgsPresent(r, args, count)
    requires PathValues(r, args, casts, k).Err?
    ensures PathValues(r, args, casts, count) == PathValues(r, args, casts, k)
  {
    if k < count {
      PathValuesFailureSticks(r, args, casts, k, count - 1);
    }
  }

  /** The feed slots of the path parameters: value at 2k, true at 2k+1, the rest null. */
  function PathFeed(vs: seq<Value>, n: nat): (feed: seq<Value>)
    requires 2 * |vs| <= n
    ensures |feed| == n
    ensures forall k :: 0 <= k < |vs| ==> feed[2 * k] == vs[k] && feed[2 * k + 1] == BoolV(true)
    ensures forall j :: 2 * |vs| <= j < n ==> feed[j] == Nil
  {
    seq(n, j requires 0 <= j < n => if j < 2 * |vs| then (if j % 2 == 0 then vs[j / 2] else BoolV(true)) else Nil)
  }

  /** The outcome of a feed builder step that can fail. */
  datatype Outcome = Pass | Fail(message: string)

  /** The guarded cast of one decoded path argument. */
  method CastPathParam(pathParamType: ParamType, argumentValue: string, casts: Casts) returns (cast: Result<Value>)
    ensures CastDecoded(pathParamType, argumentValue, casts)
            == if cast.Err? then Err(CAST_ERROR_PREFIX + cast.message) else Ok(cast.value)
  {
    if pathParamType.ArrayOf? {
      if |argumentValue| == 0 {
        cast := Err(EMPTY_SUBSTRING_MESSAGE);
      } else {
        var segments := JavaSplit(argumentValue[1..]);
        cast := casts.castParamArray(pathParamType.elementTag, segments);
      }
    } else {
      cast := casts.castParam(pathParamType.tag, argumentValue);
    }
  }

  /** One path argument decoded and cast: a decoding failure escapes as it is, a cast
      failure is reported with the cast prefix. */
  method PathParam(pathParamType: ParamType, raw: string, casts: Casts) returns (value: Result<Value>)
    ensures value == PathParamValue(pathParamType, raw, casts)
  {
    var decoded := casts.decode(raw);
    if decoded.Err? {
      return Err(decoded.message);
    }
    var cast := CastPathParam(pathParamType, decoded.value, casts);
    if cast.Err? {
      return Err(CAST_ERROR_PREFIX + cast.message);
    }
    return Ok(cast.value);
  }

  /** One more path parameter extends the values, or fails with its own error. */
  lemma PathValuesStep(r: Resource, args: map<string, map<int, string>>, casts: Casts, k: nat, vs: seq<Value>)
    requires PathArgsPresent(r, args, k + 1)
    requires PathValues(r, args, casts, k) == Ok(vs)
    ensures var p := PathParamValue(r.paramTypes[k], RawPathArg(r, args, k), casts);
            PathValues(r, args, casts, k + 1) == if p.Err? then Err(p.message) else Ok(vs + [p.value])
  {
  }

  /** populatePathParams: path parameter k's cast value at slot 2k and true at 2k+1;
      nothing beyond the path slots is touched. */
  method PopulatePathParams(r: Resource, feed: array<Value>, args: map<string, map<int, string>>,
                            count: nat, casts: Casts) returns (o: Outcome)
    requires PathArgsPresent(r, args, count) && 2 * count <= feed.Length
    modifies feed
    ensures o.Pass? <==> PathValues(r, args, casts, count).Ok?
    ensures o.Fail? ==> o.message == PathValues(r, args, casts, count).message
    ensures o.Pass? ==> forall k :: 0 <= k < count ==>
                          feed[2 * k] == PathValues(r, args, casts, count).value[k]
                          && feed[2 * k + 1] == BoolV(true)
    ensures forall j :: 2 * count <= j < feed.Length ==> feed[j] == old(feed[j])
  {
    var k := 0;
    ghost var vs: seq<Value> := [];
    while k < count
      invariant 0 <= k <= count
      invariant PathValues(r, args, casts, k) == Ok(vs)
      invariant |vs| == k
      invariant forall j :: 0 <= j < k ==> feed[2 * j] == vs[j] && feed[2 * j + 1] == BoolV(true)
      invariant forall j :: 2 * k <= j < feed.Length ==> feed[j] == old(feed[j])
    {
      var value := PathParam(r.paramTypes[k], args[r.paramNames[k]][k], casts);
      PathValuesStep(r, args, casts, k, vs);
      if value.Err? {
        PathValuesFailureSticks(r, args, casts, k + 1, count);
        return Fail(value.message);
      }
      PutPathSlot(feed, k, value.value, vs);
      vs := vs + [value.value];
      k := k + 1;
    }
    return Pass;
  }

  /** Writes path parameter k's value at slot 2k and true at 2k+1, keeping the earlier
      path slots and everything past slot 2k+1. */
  method PutPathSlot(feed: array<Value>, k: nat, v: Value, ghost vs: seq<Value>)
    requires |vs| == k && 2 * k + 1 < feed.Length
    requires forall j :: 0 <= j < k ==> feed[2 * j] == vs[j] && feed[2 * j + 1] == BoolV(true)
    modifies feed
    ensures forall j :: 0 <= j < k + 1 ==> feed[2 * j] == (vs + [v])[j] && feed[2 * j + 1] == BoolV(true)
    ensures forall j :: 2 * k + 2 <= j < feed.Length ==> feed[j] == old(feed[j])
  {
    feed[2 * k] := v;
    feed[2 * k + 1] := BoolV(true);
    forall j | 0 <= j < k + 1
      ensures feed[2 * j] == (vs + [v])[j] && feed[2 * j + 1] == BoolV(true)
    {
      if j < k {
        assert 2 * j + 1 < 2 * k;
      }
    }
  }
}
