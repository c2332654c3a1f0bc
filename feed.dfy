/** The non-path part of the argument feeds: how getSignatureParameters and
    getRemoteSignatureParameters fill the slots of the "other" parameters, one
    parameter after another, and the two builders themselves. */
module Feed {
  import opened Http
  import opened ParamFeed

  // ---------------------------------------------------------------------------
  // The parameter switch

  /** The parameter kinds that are non-recurring parameters in a switch: each writes its
      value at its own index and true right after it. A remote method knows the request
      context, the error, the response and the caller; a resource knows the caller, the
      request context, the error, the request and the headers. */
  predicate Slotted(k: ParamKind, remote: bool) {
    if remote then k.RequestContextParam? || k.GenericErrorParam? || k.ResponseParam? || k.CallerParam?
    else k.CallerParam? || k.RequestContextParam? || k.GenericErrorParam? || k.RequestParam? || k.HeadersParam?
  }

  /** The parameter kinds a resource hands to a binding collaborator (query, header and
      payload binding), which writes whatever slots it likes. */
  predicate Binds(k: ParamKind, remote: bool) {
    !remote && (k.QueryParams? || k.HeaderParams? || k.PayloadParam?)
  }

  /** Kinds that need the inbound request object. */
  predicate NeedsRequest(k: ParamKind, remote: bool) {
    !remote && (k.RequestParam? || k.HeadersParam? || k.PayloadParam?)
  }

  /** The request object createRequest would build, and the outcomes of the binding
      collaborators: AllQueryParams.populateFeed, AllHeaderParams.populateFeed and
      PayloadParam.populateFeed (given the request). */
  datatype Binders = Binders(
    request: Value,
    query: Result<seq<SlotWrite>>,
    header: Result<seq<SlotWrite>>,
    payload: Value -> Result<seq<SlotWrite>>)

  /** What one feed builder hands out: the caller, the request context, the response
      (remote methods only), and the request and binders. */
  datatype FeedEnv = FeedEnv(caller: Value, ctx: Value, response: Value, binders: Binders)

  /** The state of a feed under construction: the slots, the error known so far, how
      many request objects have been created and whether the caller's presence field
      has been set. */
  datatype FeedState = FeedState(feed: seq<Value>, error: Value, requests: nat, callerMarked: bool)

  /** The error a generic-error parameter receives: the carried one, or the placeholder
      createError makes when none is carried. */
  function EffectiveError(carried: Value): (e: Value)
    ensures carried.Nil? ==> e == ErrorV(PLACEHOLDER_ERROR)
    ensures !carried.Nil? ==> e == carried
    ensures !e.Nil?
  {
    if carried.Nil? then ErrorV(PLACEHOLDER_ERROR) else carried
  }

  /** The slots a binding parameter writes, as its collaborator reports them. */
  function BinderWrites(k: ParamKind, b: Binders): Result<seq<SlotWrite>> {
    match k
    case QueryParams => b.query
    case HeaderParams => b.header
    case _ => b.payload(b.request)
  }

  predicate WritesInRange(ws: seq<SlotWrite>, len: int) {
    forall i :: 0 <= i < |ws| ==> 0 <= ws[i].slot < len
  }

  /** Every slot index the switch uses lies inside a feed of length len ("written
      assuming that they are validated"). */
  predicate FeedReady(params: seq<Param>, b: Binders, remote: bool, len: int) {
    forall i :: 0 <= i < |params| ==> ParamReady(params[i], b, remote, len)
  }

  predicate ParamReady(p: Param, b: Binders, remote: bool, len: int) {
    && (Slotted(p.kind, remote) ==> 0 <= p.index && p.index + 1 < len)
    && (Binds(p.kind, remote) && BinderWrites(p.kind, b).Ok? ==> WritesInRange(BinderWrites(p.kind, b).value, len))
  }

  /** paramFeed[index++] = v; paramFeed[index] = true */
  function Put(feed: seq<Value>, index: int, v: Value): (r: seq<Value>)
    requires 0 <= index && index + 1 < |feed|
    ensures |r| == |feed| && r[index] == v && r[index + 1] == BoolV(true)
    ensures forall j :: 0 <= j < |feed| && j != index && j != index + 1 ==> r[j] == feed[j]
  {
    feed[index := v][index + 1 := BoolV(true)]
  }

  /** A binding collaborator's writes, in order. */
  function ApplyWrites(feed: seq<Value>, ws: seq<SlotWrite>): (r: seq<Value>)
    requires WritesInRange(ws, |feed|)
    ensures |r| == |feed|
  {
    if |ws| == 0 then feed
    else
      var last := ws[|ws| - 1];
      ApplyWrites(feed, ws[..|ws| - 1])[last.slot := last.value]
  }

  /** A slot is among those a list of writes names. */
  predicate Written(ws: seq<SlotWrite>, slot: int) {
    exists i :: 0 <= i < |ws| && ws[i].slot == slot
  }

  /** A slot no write names keeps its value. */
  lemma {:induction false} ApplyWritesUnwritten(feed: seq<Value>, ws: seq<SlotWrite>, slot: int)
    requires WritesInRange(ws, |feed|) && 0 <= slot < |feed| && !Written(ws, slot)
    ensures ApplyWrites(feed, ws)[slot] == feed[slot]
  {
    if |ws| > 0 {
      var init := ws[..|ws| - 1];
      forall i | 0 <= i < |init| ensures init[i].slot != slot {
        assert init[i] == ws[i];
      }
      ApplyWritesUnwritten(feed, init, slot);
    }
  }

  /** A written slot holds the last value written to it. */
  lemma {:induction false} ApplyWritesLast(feed: seq<Value>, ws: seq<SlotWrite>, slot: int, i: nat)
    requires WritesInRange(ws, |feed|) && i < |ws| && ws[i].slot == slot
    requires forall j :: i < j < |ws| ==> ws[j].slot != slot
    ensures ApplyWrites(feed, ws)[slot] == ws[i].value
  {
    if i < |ws| - 1 {
      var init := ws[..|ws| - 1];
      forall j | i < j < |init| ensures init[j].slot != slot {
        assert init[j] == ws[j];
      }
      assert init[i] == ws[i];
      ApplyWritesLast(feed, init, slot, i);
    }
  }

  /** The lazy `if (inRequest == null) inRequest = createRequest(...)`. */
  function WithRequest(st: FeedState): (r: FeedState)
    ensures r.requests == if st.requests == 0 then 1 else st.requests
    ensures r.feed == st.feed && r.error == st.error && r.callerMarked == st.callerMarked
  {
    if st.requests == 0 then st.(requests := 1) else st
  }

  /** A binding parameter: its collaborator's writes, or its failure. */
  function Bind(st: FeedState, p: Param, env: FeedEnv): (r: Result<FeedState>)
    requires BinderWrites(p.kind, env.binders).Ok? ==> WritesInRange(BinderWrites(p.kind, env.binders).value, |st.feed|)
    ensures r.Ok? ==> r.value == st.(feed := r.value.feed)
  {
    match BinderWrites(p.kind, env.binders)
    case Err(m) => Err(m)
    case Ok(ws) => Ok(st.(feed := ApplyWrites(st.feed, ws)))
  }

  /** One case of the switch; only a binding collaborator can fail. */
  function Step(st: FeedState, p: Param, env: FeedEnv, remote: bool): (r: Result<FeedState>)
    requires ParamReady(p, env.binders, remote, |st.feed|)
    ensures r.Ok? ==> |r.value.feed| == |st.feed|
  {
    match p.kind
    case CallerParam =>
      Ok(st.(feed := Put(st.feed, p.index, env.caller), callerMarked := st.callerMarked || !remote))
    case RequestContextParam => Ok(st.(feed := Put(st.feed, p.index, env.ctx)))
    case GenericErrorParam =>
      var e := EffectiveError(st.error);
      Ok(st.(feed := Put(st.feed, p.index, e), error := e))
    case ResponseParam => if remote then Ok(st.(feed := Put(st.feed, p.index, env.response))) else Ok(st)
    case RequestParam =>
      if remote then Ok(st)
      else var s := WithRequest(st); Ok(s.(feed := Put(s.feed, p.index, env.binders.request)))
    case HeadersParam =>
      if remote then Ok(st)
      else var s := WithRequest(st); Ok(s.(feed := Put(s.feed, p.index, HeadersV(env.binders.request))))
    case QueryParams => if remote then Ok(st) else Bind(st, p, env)
    case HeaderParams => if remote then Ok(st) else Bind(st, p, env)
    case PayloadParam => if remote then Ok(st) else Bind(WithRequest(st), p, env)
    case OtherParam => Ok(st)
  }

  /** The switch run over the parameters in order, stopping at the first failure. */
  function Fold(params: seq<Param>, init: FeedState, env: FeedEnv, remote: bool): (r: Result<FeedState>)
    requires FeedReady(params, env.binders, remote, |init.feed|)
    ensures r.Ok? ==> |r.value.feed| == |init.feed|
  {
    if |params| == 0 then Ok(init)
    else
      match Fold(params[..|params| - 1], init, env, remote)
      case Err(m) => Err(m)
      case Ok(st) => Step(st, params[|params| - 1], env, remote)
  }

  /** The value a non-recurring parameter of kind k receives. */
  function SlotValue(k: ParamKind, env: FeedEnv, carried: Value): Value {
    match k
    case CallerParam => env.caller
    case RequestContextParam => env.ctx
    case GenericErrorParam => EffectiveError(carried)
    case ResponseParam => env.response
    case RequestParam => env.binders.request
    case HeadersParam => HeadersV(env.binders.request)
    case _ => Nil
  }

  /** Parameter q may write the slot. */
  predicate Touches(q: Param, slot: int, env: FeedEnv, remote: bool) {
    || (Slotted(q.kind, remote) && (slot == q.index || slot == q.index + 1))
    || (Binds(q.kind, remote) && BinderWrites(q.kind, env.binders).Ok? && Written(BinderWrites(q.kind, env.binders).value, slot))
  }

  // ---------------------------------------------------------------------------
  // Properties of the switch

  /** The remote switch has no binding collaborator and so never fails. */
  lemma {:induction false} RemoteNeverFails(params: seq<Param>, init: FeedState, env: FeedEnv)
    requires FeedReady(params, env.binders, true, |init.feed|)
    ensures Fold(params, init, env, true).Ok?
  {
    if |params| > 0 {
      RemoteNeverFails(params[..|params| - 1], init, env);
    }
  }

  /** Every generic-error slot sees the same error: afterwards the known error is the
      carried one, replaced by the placeholder only when it was null and some parameter
      is a generic error. */
  lemma {:induction false} ErrorKnown(params: seq<Param>, init: FeedState, env: FeedEnv, remote: bool)
    requires FeedReady(params, env.binders, remote, |init.feed|)
    requires Fold(params, init, env, remote).Ok?
    ensures Fold(params, init, env, remote).value.error
            == if exists i :: 0 <= i < |params| && params[i].kind.GenericErrorParam?
               then EffectiveError(init.error) else init.error
  {
    if |params| > 0 {
      var front := params[..|params| - 1];
      ErrorKnown(front, init, env, remote);
      StepError(Fold(front, init, env, remote).value, params[|params| - 1], env, remote);
      if exists i :: 0 <= i < |front| && front[i].kind.GenericErrorParam? {
        var i :| 0 <= i < |front| && front[i].kind.GenericErrorParam?;
        assert params[i] == front[i];
      }
      if exists i :: 0 <= i < |params| && params[i].kind.GenericErrorParam? {
        var i :| 0 <= i < |params| && params[i].kind.GenericErrorParam?;
        if i < |front| {
          assert front[i] == params[i];
        }
      }
    }
  }

  /** Only a generic-error parameter's step changes the error, to the effective one. */
  lemma StepError(st: FeedState, p: Param, env: FeedEnv, remote: bool)
    requires ParamReady(p, env.binders, remote, |st.feed|) && Step(st, p, env, remote).Ok?
    ensures Step(st, p, env, remote).value.error
            == if p.kind.GenericErrorParam? then EffectiveError(st.error) else st.error
  {
  }

  /** At most one request object is made: exactly one when some parameter needs it,
      none otherwise. */
  lemma {:induction false} RequestMadeOnce(params: seq<Param>, init: FeedState, env: FeedEnv, remote: bool)
    requires FeedReady(params, env.binders, remote, |init.feed|)
    requires init.requests == 0
    requires Fold(params, init, env, remote).Ok?
    ensures Fold(params, init, env, remote).value.requests
            == if exists i :: 0 <= i < |params| && NeedsRequest(params[i].kind, remote) then 1 else 0
  {
    if |params| > 0 {
      var front := params[..|params| - 1];
      RequestMadeOnce(front, init, env, remote);
      if exists i :: 0 <= i < |front| && NeedsRequest(front[i].kind, remote) {
        var i :| 0 <= i < |front| && NeedsRequest(front[i].kind, remote);
        assert params[i] == front[i];
      }
      if exists i :: 0 <= i < |params| && NeedsRequest(params[i].kind, remote) {
        var i :| 0 <= i < |params| && NeedsRequest(params[i].kind, remote);
        if i < |front| {
          assert front[i] == params[i];
        }
      }
    }
  }

  /** The caller's presence field is set exactly when a resource declares a caller
      parameter; a remote method never sets it. */
  lemma {:induction false} CallerMarked(params: seq<Param>, init: FeedState, env: FeedEnv, remote: bool)
    requires FeedReady(params, env.binders, remote, |init.feed|)
    requires Fold(params, init, env, remote).Ok?
    ensures Fold(params, init, env, remote).value.callerMarked
            == (init.callerMarked || (!remote && exists i :: 0 <= i < |params| && params[i].kind.CallerParam?))
  {
    if |params| > 0 {
      var front := params[..|params| - 1];
      CallerMarked(front, init, env, remote);
      if exists i :: 0 <= i < |front| && front[i].kind.CallerParam? {
        var i :| 0 <= i < |front| && front[i].kind.CallerParam?;
        assert params[i] == front[i];
      }
      if exists i :: 0 <= i < |params| && params[i].kind.CallerParam? {
        var i :| 0 <= i < |params| && params[i].kind.CallerParam?;
        if i < |front| {
          assert front[i] == params[i];
        }
      }
    }
  }

  /** A step of a parameter that does not touch a slot leaves it alone. */
  lemma StepKeeps(st: FeedState, q: Param, env: FeedEnv, remote: bool, slot: int)
    requires ParamReady(q, env.binders, remote, |st.feed|) && 0 <= slot < |st.feed|
    requires Step(st, q, env, remote).Ok? && !Touches(q, slot, env, remote)
    ensures Step(st, q, env, remote).value.feed[slot] == st.feed[slot]
  {
    if Binds(q.kind, remote) {
      ApplyWritesUnwritten(st.feed, BinderWrites(q.kind, env.binders).value, slot);
    }
  }

  /** A slot no parameter touches keeps its initial value (null in a fresh feed). */
  lemma {:induction false} UntouchedSlot(params: seq<Param>, init: FeedState, env: FeedEnv, remote: bool,
                                         slot: int)
    requires FeedReady(params, env.binders, remote, |init.feed|) && 0 <= slot < |init.feed|
    requires Fold(params, init, env, remote).Ok?
    requires forall i :: 0 <= i < |params| ==> !Touches(params[i], slot, env, remote)
    ensures Fold(params, init, env, remote).value.feed[slot] == init.feed[slot]
  {
    if |params| > 0 {
      var front := params[..|params| - 1];
      UntouchedSlot(front, init, env, remote, slot);
      StepKeeps(Fold(front, init, env, remote).value, params[|params| - 1], env, remote, slot);
    }
  }

  /** A non-recurring parameter's value sits at its index, and true right after it,
      unless a later parameter writes over either slot. */
  lemma {:induction false} SlotHolds(params: seq<Param>, init: FeedState, env: FeedEnv, remote: bool, i: nat)
    requires FeedReady(params, env.binders, remote, |init.feed|)
    requires Fold(params, init, env, remote).Ok?
    requires i < |params| && Slotted(params[i].kind, remote)
    requires forall j :: i < j < |params| ==>
               !Touches(params[j], params[i].index, env, remote) && !Touches(params[j], params[i].index + 1, env, remote)
    ensures var r := Fold(params, init, env, remote).value;
            r.feed[params[i].index] == SlotValue(params[i].kind, env, init.error)
            && r.feed[params[i].index + 1] == BoolV(true)
  {
    var front := params[..|params| - 1];
    var p := params[i];
    var st := Fold(front, init, env, remote).value;
    if i == |params| - 1 {
      assert Fold(params, init, env, remote) == Step(st, p, env, remote);
      StepSlot(st, p, env, remote);
      if p.kind.GenericErrorParam? {
        ErrorKnown(front, init, env, remote);
      }
    } else {
      assert front[i] == p;
      SlotHolds(front, init, env, remote, i);
      StepKeeps(st, params[|params| - 1], env, remote, p.index);
      StepKeeps(st, params[|params| - 1], env, remote, p.index + 1);
    }
  }

  /** A non-recurring parameter's own step writes its value and true after it. */
  lemma StepSlot(st: FeedState, p: Param, env: FeedEnv, remote: bool)
    requires ParamReady(p, env.binders, remote, |st.feed|) && Slotted(p.kind, remote)
    ensures Step(st, p, env, remote).Ok?
    ensures Step(st, p, env, remote).value.feed[p.index] == SlotValue(p.kind, env, st.error)
    ensures Step(st, p, env, remote).value.feed[p.index + 1] == BoolV(true)
  {
  }

  // ---------------------------------------------------------------------------
  // The imperative switch

  /** A binding collaborator's writes applied to the feed array. */
  method ApplyWritesTo(feed: array<Value>, ws: seq<SlotWrite>)
    requires WritesInRange(ws, feed.Length)
    modifies feed
    ensures feed[..] == ApplyWrites(old(feed[..]), ws)
  {
    var i := 0;
    while i < |ws|
      invariant 0 <= i <= |ws|
      invariant feed[..] == ApplyWrites(old(feed[..]), ws[..i])
    {
      assert ws[..i + 1][..i] == ws[..i];
      feed[ws[i].slot] := ws[i].value;
      i := i + 1;
    }
    assert ws[..i] == ws;
  }

  /** The for-loop over the other parameters, on the feed array. `error`, `requests` and
      `callerMarked` are the loop's lazily updated locals. */
  method FillOtherParams(feed: array<Value>, params: seq<Param>, env: FeedEnv, remote: bool, carried: Value)
    returns (o: Outcome, error: Value, requests: nat, callerMarked: bool)
    requires FeedReady(params, env.binders, remote, feed.Length)
    modifies feed
    ensures var r := Fold(params, FeedState(old(feed[..]), carried, 0, false), env, remote);
            && (o.Pass? <==> r.Ok?)
            && (o.Fail? ==> o.message == r.message)
            && (o.Pass? ==> r.value == FeedState(feed[..], error, requests, callerMarked))
  {
    ghost var init := FeedState(feed[..], carried, 0, false);
    error, requests, callerMarked := carried, 0, false;
    var i := 0;
    while i < |params|
      invariant 0 <= i <= |params| && feed.Length == |init.feed|
      invariant Fold(params[..i], init, env, remote) == Ok(FeedState(feed[..], error, requests, callerMarked))
    {
      var p := params[i];
      assert params[..i + 1][..i] == params[..i];
      assert ParamReady(p, env.binders, remote, feed.Length);
      ghost var st := FeedState(feed[..], error, requests, callerMarked);
      match p.kind {
        case CallerParam =>
          if !remote {
            callerMarked := true;
          }
          feed[p.index] := env.caller;
          feed[p.index + 1] := BoolV(true);
        case RequestContextParam =>
          feed[p.index] := env.ctx;
          feed[p.index + 1] := BoolV(true);
        case GenericErrorParam =>
          if error.Nil? {
            error := ErrorV(PLACEHOLDER_ERROR);
          }
          feed[p.index] := error;
          feed[p.index + 1] := BoolV(true);
        case ResponseParam =>
          if remote {
            feed[p.index] := env.response;
            feed[p.index + 1] := BoolV(true);
          }
        case RequestParam =>
          if !remote {
            if requests == 0 {
              requests := 1;
            }
            feed[p.index] := env.binders.request;
            feed[p.index + 1] := BoolV(true);
          }
        case HeadersParam =>
          if !remote {
            if requests == 0 {
              requests := 1;
            }
            feed[p.index] := HeadersV(env.binders.request);
            feed[p.index + 1] := BoolV(true);
          }
        case QueryParams =>
          if !remote {
            var writes := env.binders.query;
            if writes.Err? {
              PrefixFailureSticks(params, init, env, remote, i + 1);
              return Fail(writes.message), error, requests, callerMarked;
            }
            ApplyWritesTo(feed, writes.value);
          }
        case HeaderParams =>
          if !remote {
            var writes := env.binders.header;
            if writes.Err? {
              PrefixFailureSticks(params, init, env, remote, i + 1);
              return Fail(writes.message), error, requests, callerMarked;
            }
            ApplyWritesTo(feed, writes.value);
          }
        case PayloadParam =>
          if !remote {
            if requests == 0 {
              requests := 1;
            }
            var writes := env.binders.payload(env.binders.request);
            if writes.Err? {
              PrefixFailureSticks(params, init, env, remote, i + 1);
              return Fail(writes.message), error, requests, callerMarked;
            }
            ApplyWritesTo(feed, writes.value);
          }
        case OtherParam =>
      }
      assert Step(st, p, env, remote) == Ok(FeedState(feed[..], error, requests, callerMarked));
      i := i + 1;
    }
    assert params[..i] == params;
    return Pass, error, requests, callerMarked;
  }

  /** A failure of a prefix of the parameters is the failure of the whole fold. */
  lemma {:induction false} PrefixFailureSticks(params: seq<Param>, init: FeedState, env: FeedEnv, remote: bool, k: nat)
    requires k <= |params| && FeedReady(params, env.binders, remote, |init.feed|)
    requires Fold(params[..k], init, env, remote).Err?
    ensures Fold(params, init, env, remote) == Fold(params[..k], init, env, remote)
  {
    if k < |params| {
      var front := params[..|params| - 1];
      assert front[..k] == params[..k];
      PrefixFailureSticks(front, init, env, remote, k);
    } else {
      assert params[..k] == params;
    }
  }

  // ---------------------------------------------------------------------------
  // The builders

  /** The resource arguments after the wildcard fold, as populatePathParams reads them;
      with no path parameter the fold does not happen. */
  function PathArgs(r: Resource, args: map<string, map<int, string>>): map<string, map<int, string>>
    requires r.pathParamCount != 0 ==> WildcardReady(r.wildcardToken, args)
  {
    if r.pathParamCount == 0 then args else WildcardFolded(r.wildcardToken, r.pathParamCount - 1, args)
  }

  /** The feed a resource receives: two null slots per signature parameter, the path
      parameters in the leading slots, then the other parameters' switch. */
  function SignatureFeed(r: Resource, args: map<string, map<int, string>>, casts: Casts, env: FeedEnv,
                         carried: Value): (res: Result<FeedState>)
    requires PathArgsPresent(r, args, r.pathParamCount)
    requires FeedReady(r.otherParams, env.binders, false, 2 * |r.paramTypes|)
    ensures res.Ok? ==> |res.value.feed| == 2 * |r.paramTypes|
  {
    match PathValues(r, args, casts, r.pathParamCount)
    case Err(m) => Err(m)
    case Ok(vs) => Fold(r.otherParams, FeedState(PathFeed(vs, 2 * |r.paramTypes|), carried, 0, false), env, false)
  }

  /** In a resource's feed, path parameter k's value sits at slot 2k and true at 2k+1
      unless some other parameter writes there. */
  lemma PathSlotsKept(r: Resource, args: map<string, map<int, string>>, casts: Casts, env: FeedEnv,
                      carried: Value, k: nat)
    requires PathArgsPresent(r, args, r.pathParamCount)
    requires FeedReady(r.otherParams, env.binders, false, 2 * |r.paramTypes|)
    requires SignatureFeed(r, args, casts, env, carried).Ok? && k < r.pathParamCount
    requires forall i :: 0 <= i < |r.otherParams| ==>
               !Touches(r.otherParams[i], 2 * k, env, false) && !Touches(r.otherParams[i], 2 * k + 1, env, false)
    ensures PathValues(r, args, casts, r.pathParamCount).Ok?
    ensures var res := SignatureFeed(r, args, casts, env, carried).value;
            var vs := PathValues(r, args, casts, r.pathParamCount).value;
            res.feed[2 * k] == vs[k] && res.feed[2 * k + 1] == BoolV(true)
  {
    var vs := PathValues(r, args, casts, r.pathParamCount).value;
    var init := FeedState(PathFeed(vs, 2 * |r.paramTypes|), carried, 0, false);
    assert SignatureFeed(r, args, casts, env, carried) == Fold(r.otherParams, init, env, false);
    assert k < |vs|;
    assert init.feed[2 * k] == vs[k] && init.feed[2 * k + 1] == BoolV(true);
    UntouchedSlot(r.otherParams, init, env, false, 2 * k);
    UntouchedSlot(r.otherParams, init, env, false, 2 * k + 1);
  }

  /** In a resource's feed, a non-recurring parameter's value sits at its index and true
      right after it unless a later parameter writes there. */
  lemma ParamSlotHolds(r: Resource, args: map<string, map<int, string>>, casts: Casts, env: FeedEnv,
                       carried: Value, i: nat)
    requires PathArgsPresent(r, args, r.pathParamCount)
    requires FeedReady(r.otherParams, env.binders, false, 2 * |r.paramTypes|)
    requires SignatureFeed(r, args, casts, env, carried).Ok?
    requires i < |r.otherParams| && Slotted(r.otherParams[i].kind, false)
    requires forall j :: i < j < |r.otherParams| ==>
               && !Touches(r.otherParams[j], r.otherParams[i].index, env, false)
               && !Touches(r.otherParams[j], r.otherParams[i].index + 1, env, false)
    ensures var res := SignatureFeed(r, args, casts, env, carried).value;
            && res.feed[r.otherParams[i].index] == SlotValue(r.otherParams[i].kind, env, carried)
            && res.feed[r.otherParams[i].index + 1] == BoolV(true)
  {
    var vs := PathValues(r, args, casts, r.pathParamCount).value;
    SlotHolds(r.otherParams, FeedState(PathFeed(vs, 2 * |r.paramTypes|), carried, 0, false), env, false, i);
  }

  /** In a resource's feed, a slot past the path slots that no parameter writes is null. */
  lemma FreeSlotNull(r: Resource, args: map<string, map<int, string>>, casts: Casts, env: FeedEnv,
                     carried: Value, slot: int)
    requires PathArgsPresent(r, args, r.pathParamCount)
    requires FeedReady(r.otherParams, env.binders, false, 2 * |r.paramTypes|)
    requires SignatureFeed(r, args, casts, env, carried).Ok?
    requires 2 * r.pathParamCount <= slot < 2 * |r.paramTypes|
    requires forall i :: 0 <= i < |r.otherParams| ==> !Touches(r.otherParams[i], slot, env, false)
    ensures SignatureFeed(r, args, casts, env, carried).value.feed[slot] == Nil
  {
    var vs := PathValues(r, args, casts, r.pathParamCount).value;
    UntouchedSlot(r.otherParams, FeedState(PathFeed(vs, 2 * |r.paramTypes|), carried, 0, false), env, false, slot);
  }

  /** The path slots, as populatePathParams leaves a fresh feed. */
  lemma PathFeedFilled(feed: seq<Value>, vs: seq<Value>)
    requires 2 * |vs| <= |feed|
    requires forall k :: 0 <= k < |vs| ==> feed[2 * k] == vs[k] && feed[2 * k + 1] == BoolV(true)
    requires forall j :: 2 * |vs| <= j < |feed| ==> feed[j] == Nil
    ensures feed == PathFeed(vs, |feed|)
  {
    var want := PathFeed(vs, |feed|);
    forall j | 0 <= j < |feed| ensures feed[j] == want[j] {
      if j < 2 * |vs| {
        var k := j / 2;
        assert j == 2 * k || j == 2 * k + 1;
      }
    }
  }

  /** getCaller: the CALLER property if set, else a new caller object; it is stored back
      as CALLER. Enriching it with connection data is not modelled. */
  method GetCaller(msg: Message, newCaller: Value) returns (caller: Value)
    requires ObjectOrAbsent(msg.Prop(Caller))
    modifies msg`props
    ensures caller == if old(msg.Prop(Caller)).Nil? then newCaller else old(msg.Prop(Caller))
    ensures msg.props == old(msg.props)[Caller := caller]
  {
    var stored := msg.Prop(Caller);
    caller := if stored.Nil? then newCaller else stored;
    msg.props := msg.props[Caller := caller];
  }

  /** A fresh `new Object[n]`. */
  function Blank(n: nat): (r: seq<Value>)
    ensures |r| == n && forall j :: 0 <= j < n ==> r[j] == Nil
  {
    seq(n, _ => Nil)
  }

  /** The feed-building half of getSignatureParameters: a fresh feed, the wildcard fold
      and the path parameters when there are any, then the other parameters. */
  method BuildSignatureFeed(r: Resource, a: ResourceArguments?, env: FeedEnv, casts: Casts, carried: Value)
    returns (res: Result<array<Value>>, callerMarked: bool)
    requires r.pathParamCount != 0 ==>
               && a != null
               && WildcardReady(r.wildcardToken, a.args)
               && PathArgsPresent(r, PathArgs(r, a.args), r.pathParamCount)
    requires r.pathParamCount <= |r.paramTypes|
    requires FeedReady(r.otherParams, env.binders, false, 2 * |r.paramTypes|)
    modifies a
    ensures r.pathParamCount != 0 ==> a.args == PathArgs(r, old(a.args))
    ensures r.pathParamCount == 0 ==> a == null || a.args == old(a.args)
    ensures var args := if r.pathParamCount == 0 then map[] else a.args;
            var spec := SignatureFeed(r, args, casts, env, carried);
            && (res.Ok? <==> spec.Ok?)
            && (res.Err? ==> res.message == spec.message)
            && (res.Ok? ==> fresh(res.value) && res.value[..] == spec.value.feed
                            && callerMarked == spec.value.callerMarked)
  {
    var path := BuildPathFeed(r, a, casts);
    if path.Err? {
      return Err(path.message), false;
    }
    var feed := path.value;
    var o, _, _, marked := FillOtherParams(feed, r.otherParams, env, false, carried);
    if o.Fail? {
      return Err(o.message), false;
    }
    return Ok(feed), marked;
  }

  /** The first half of BuildSignatureFeed: a fresh feed of two null slots per signature
      parameter, with the wildcard fold and the path parameters when there are any. */
  method BuildPathFeed(r: Resource, a: ResourceArguments?, casts: Casts) returns (res: Result<array<Value>>)
    requires r.pathParamCount != 0 ==>
               && a != null
               && WildcardReady(r.wildcardToken, a.args)
               && PathArgsPresent(r, PathArgs(r, a.args), r.pathParamCount)
    requires r.pathParamCount <= |r.paramTypes|
    modifies a
    ensures r.pathParamCount != 0 ==> a.args == PathArgs(r, old(a.args))
    ensures r.pathParamCount == 0 ==> a == null || a.args == old(a.args)
    ensures var args := if r.pathParamCount == 0 then map[] else a.args;
            var pv := PathValues(r, args, casts, r.pathParamCount);
            && (res.Ok? <==> pv.Ok?)
            && (res.Err? ==> res.message == pv.message)
            && (res.Ok? ==> fresh(res.value) && res.value[..] == PathFeed(pv.value, 2 * |r.paramTypes|))
  {
    var count := r.pathParamCount;
    var feed := new Value[2 * |r.paramTypes|](_ => Nil);
    assert feed[..] == Blank(feed.Length);
    ghost var args: map<string, map<int, string>> := map[];
    if count != 0 {
      UpdateWildcardToken(r.wildcardToken, count - 1, a);
      args := a.args;
      var o := PopulatePathParams(r, feed, a.args, count, casts);
      if o.Fail? {
        return Err(o.message);
      }
    }
    ghost var vs := PathValues(r, args, casts, count).value;
    PathFeedFilled(feed[..], vs);
    return Ok(feed);
  }

  /** getSignatureParameters: the request context (created once) is prepared for the
      request path, the caller is fetched and stored, and the feed is built as
      BuildSignatureFeed states; callerMarked reports whether the caller's presence
      field was set. */
  method GetSignatureParameters(r: Resource, msg: Message, newCaller: Value, binders: Binders, casts: Casts)
    returns (res: Result<array<Value>>, callerMarked: bool)
    requires IntOrAbsent(msg.Prop(RequestInterceptorIndex))
    requires ErrorOrAbsent(msg.Prop(InterceptorServiceError)) && ObjectOrAbsent(msg.Prop(Caller))
    requires r.pathParamCount != 0 ==>
               && msg.resourceArgs != null
               && WildcardReady(r.wildcardToken, msg.resourceArgs.args)
               && PathArgsPresent(r, PathArgs(r, msg.resourceArgs.args), r.pathParamCount)
    requires r.pathParamCount <= |r.paramTypes|
    requires FeedReady(r.otherParams, binders, false, 2 * |r.paramTypes|)
    modifies msg`requestContext, msg`props, msg.requestContext, msg.resourceArgs
    ensures msg.requestContext != null && msg.resourceArgs == old(msg.resourceArgs)
    ensures old(msg.requestContext) != null ==> msg.requestContext == old(msg.requestContext)
    ensures old(msg.requestContext) == null ==> fresh(msg.requestContext)
    ensures var ctx := msg.requestContext;
            && ctx.interceptorService == Some(r.isInterceptorResource)
            && ctx.requestIndex == Some(var stored := old(msg.Prop(RequestInterceptorIndex));
                                        if stored.Nil? then 0 else stored.i - 1)
            && !ctx.next && ctx.serviceType == Some(RequestInterceptor)
    ensures old(msg.requestContext) != null ==>
              var ctx := msg.requestContext;
              && ctx.interceptors == old(msg.requestContext.interceptors)
              && ctx.targetService == old(msg.requestContext.targetService)
              && ctx.responseIndex == old(msg.requestContext.responseIndex)
    ensures old(msg.requestContext) == null ==>
              var ctx := msg.requestContext;
              && ctx.interceptors == InterceptorsOf(old(msg.Prop(Interceptors)))
              && ctx.targetService == old(msg.Prop(TargetService))
              && ctx.responseIndex.None?
    ensures var stored := old(msg.Prop(Caller));
            msg.props == old(msg.props)[Caller := if stored.Nil? then newCaller else stored]
    ensures r.pathParamCount != 0 ==> msg.resourceArgs.args == PathArgs(r, old(msg.resourceArgs.args))
    ensures r.pathParamCount == 0 ==> msg.resourceArgs == null || msg.resourceArgs.args == old(msg.resourceArgs.args)
    ensures var args := if r.pathParamCount == 0 then map[] else msg.resourceArgs.args;
            var env := FeedEnv(msg.props[Caller], CtxV(msg.requestContext), Nil, binders);
            var spec := SignatureFeed(r, args, casts, env, old(msg.Prop(InterceptorServiceError)));
            && (res.Ok? <==> spec.Ok?)
            && (res.Err? ==> res.message == spec.message)
            && (res.Ok? ==> fresh(res.value) && res.value[..] == spec.value.feed
                            && callerMarked == spec.value.callerMarked)
  {
    var ctx := GetRequestCtx(msg);
    PopulatePropertiesForRequestPath(r, msg, ctx);
    var error := msg.Prop(InterceptorServiceError);
    var caller := GetCaller(msg, newCaller);
    res, callerMarked := BuildSignatureFeed(r, msg.resourceArgs, FeedEnv(caller, CtxV(ctx), Nil, binders), casts, error);
  }

  /** getRemoteSignatureParameters: the request context (created once) is prepared for
      the response path and the feed is the remote switch over a fresh feed of two null
      slots per parameter, which never fails. */
  method GetRemoteSignatureParameters(sig: RemoteSignature, response: Value, caller: Value, msg: Message)
    returns (feed: array<Value>)
    requires IntOrAbsent(msg.Prop(ResponseInterceptorIndex))
    requires ErrorOrAbsent(msg.Prop(InterceptorServiceError))
    requires FeedReady(sig.otherParams, NO_BINDERS, true, 2 * sig.paramCount)
    modifies msg`requestContext, msg.requestContext
    ensures msg.requestContext != null
    ensures old(msg.requestContext) != null ==> msg.requestContext == old(msg.requestContext)
    ensures old(msg.requestContext) == null ==> fresh(msg.requestContext)
    ensures var ctx := msg.requestContext;
            && ctx.interceptorService == Some(true)
            && ctx.responseIndex == Some(var stored := old(msg.Prop(ResponseInterceptorIndex));
                                         if stored.Nil? then 0 else stored.i + 1)
            && !ctx.next && ctx.serviceType == Some(ResponseInterceptor)
    ensures old(msg.requestContext) != null ==>
              var ctx := msg.requestContext;
              && ctx.interceptors == old(msg.requestContext.interceptors)
              && ctx.targetService == old(msg.requestContext.targetService)
              && ctx.requestIndex == old(msg.requestContext.requestIndex)
    ensures old(msg.requestContext) == null ==>
              var ctx := msg.requestContext;
              && ctx.interceptors == InterceptorsOf(old(msg.Prop(Interceptors)))
              && ctx.targetService == old(msg.Prop(TargetService))
              && ctx.requestIndex.None?
    ensures fresh(feed)
    ensures var env := FeedEnv(caller, CtxV(msg.requestContext), response, NO_BINDERS);
            var r := Fold(sig.otherParams, FeedState(Blank(2 * sig.paramCount), msg.Prop(InterceptorServiceError), 0, false),
                          env, true);
            r.Ok? && feed[..] == r.value.feed
  {
    var ctx := GetRequestCtx(msg);
    PopulatePropertiesForResponsePath(msg, ctx);
    var error := msg.Prop(InterceptorServiceError);
    feed := BuildRemoteFeed(sig, FeedEnv(caller, CtxV(ctx), response, NO_BINDERS), error);
  }

  /** The feed-building half of getRemoteSignatureParameters. */
  method BuildRemoteFeed(sig: RemoteSignature, env: FeedEnv, carried: Value) returns (feed: array<Value>)
    requires FeedReady(sig.otherParams, env.binders, true, 2 * sig.paramCount)
    ensures fresh(feed)
    ensures var r := Fold(sig.otherParams, FeedState(Blank(2 * sig.paramCount), carried, 0, false), env, true);
            r.Ok? && feed[..] == r.value.feed
  {
    feed := new Value[2 * sig.paramCount](_ => Nil);
    assert feed[..] == Blank(feed.Length);
    RemoteNeverFails(sig.otherParams, FeedState(feed[..], carried, 0, false), env);
    var o, _, _, _ := FillOtherParams(feed, sig.otherParams, env, true, carried);
  }

  /** A remote method has no binders; these stand in for them. */
  const NO_BINDERS: Binders := Binders(Nil, Ok([]), Ok([]), _ => Ok([]))

  /** shouldDiffer: dispatch waits for the payload exactly when a resource was found and
      its parameters require payload binding. */
  function ShouldDiffer(resource: Option<Resource>): (r: bool)
    ensures r <==> resource.Some? && resource.value.payloadBindingRequired
  {
    resource.Some? && resource.value.payloadBindingRequired
  }
}
