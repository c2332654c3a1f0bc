# Dispatch and interceptor continuations of the Ballerina HTTP listener

This project models, in Dafny, three pieces of the Ballerina HTTP listener's native layer.

- **HttpDispatcher** resolves an inbound message to a service and a resource, and builds
  the positional argument feed handed to a resource or to a response interceptor's
  remote method. Resolution has four steps:
  - pick a host table;
  - strip matrix parameters;
  - validate the URI;
  - find the most specific base path, then annotate the message's properties.

  A feed is an `Object[]` of length 2 × arity. Slot `2k` holds a value and slot `2k+1`
  its presence flag.
- **HttpRequestInterceptorUnitCallback** runs when a request interceptor completes. It
  chooses among these effects:
  - dispatch the message again (`onMessage`);
  - answer through the caller (`returnResponse` / `returnErrorResponse`);
  - release the entities and handle a failure.
- **HttpResponseInterceptorUnitCallback** runs when a response interceptor completes. It
  has the same shape, with these differences:
  - it forwards the response instead of dispatching again;
  - it uses the smaller of the two interceptor indices;
  - its edge cases differ.

Modules:

| file | module | contents |
|---|---|---|
| `http.dfy` | `Http` | values, message property keys, the `Message` and `RequestContext` classes, the effect log entries, the 6-slot return feed |
| `dispatch.dfy` | `Dispatch` | `findService`, `findInterceptorService`, `setInboundReqProperties`, `getValidatedURI`, `findResource`, `findInterceptorResource`: a specification function per operation and a method on the message proved against it |
| `dispatch_properties.dfy` | `DispatchProperties` | lemmas about service resolution |
| `param_feed.dfy` | `ParamFeed` | request-context creation and index arithmetic, `updateWildcardToken`, Java's `String.split("/")`, `populatePathParams` |
| `feed.dfy` | `Feed` | the parameter switch of `getSignatureParameters` / `getRemoteSignatureParameters` as a fold, its lemmas, the two builders, `getCaller`, `shouldDiffer` |
| `request_callback.dfy` | `RequestCallback` | the request continuation: specification functions, lemmas, and a `Callback` class whose methods append to an effect log |
| `response_callback.dfy` | `ResponseCallback` | the same for the response continuation |

Conventions:

- A Java `null` property is an absent key, or the `Nil` value.
- Every Java exception becomes `Err(message)`.
- Each asynchronous call is an `Effect` appended, in issue order, to the callback's
  `effects` log:
  - `onMessage` is `Redispatch`;
  - `invokeMethodAsyncSequentially` is `Invoke`;
  - `nativeRespondWithDataCtx` is `ForwardResponse`;
  - `waitAndReleaseAllEntities` is `ReleaseEntities`;
  - `HttpUtil.handleFailure` is `HandleFailure`.
- Collaborators whose code is not part of this model are function-valued parameters:
  - `URIUtil.extractMatrixParams`, `URI.create` and `URIUtil.getSubPath` (`UriTools`);
  - `findTheMostSpecificBasePath` (`findBase`);
  - `ResourceDispatcher.findResource` (`findRes`);
  - `castParam`, `castParamArray` and `URLDecoder.decode` (`Casts`);
  - the three `populateFeed` binders (`Binders`).

## Model

Source paths are relative to the repository root.

| member | source | states |
|---|---|---|
| Dispatch.SelectHost | native/src/main/java/io/ballerina/stdlib/http/api/HttpDispatcher.java:68-80 | the Host header's table is used exactly when the header is present and registered; otherwise the default host's table when registered; there is no table iff neither is registered |
| Dispatch.HostHeader | native/src/main/java/io/ballerina/stdlib/http/api/HttpDispatcher.java:68 | a plain wrapper over the header map: the host name is present iff the message has a Host header, and it is that header's value |
| Dispatch.NoListenerMessage | native/src/main/java/io/ballerina/stdlib/http/api/HttpDispatcher.java:78-79 | the message is "no service has registered for listener : " followed by the LOCAL_ADDRESS string |
| Dispatch.ValidatedUri | native/src/main/java/io/ballerina/stdlib/http/api/HttpDispatcher.java:165-173 | a plain wrapper over the URI parser, whose only content is the rewrapping: the URI is valid iff the parser accepts the string, and is the parser's URI; a rejected string fails with the parser's own message |
| Dispatch.Lookup | native/src/main/java/io/ballerina/stdlib/http/api/HttpDispatcher.java:97 | the service is found iff the base path is a key of the host's services, and it is that key's service |
| Dispatch.InboundReqProperties | native/src/main/java/io/ballerina/stdlib/http/api/HttpDispatcher.java:156-163 | exactly BASE_PATH, SUB_PATH, QUERY_STR and RAW_QUERY_STR are added or overwritten, with the base path, the collaborator's sub-path and the URI's query and raw query; every other property is kept |
| Dispatch.UriProperties | native/src/main/java/io/ballerina/stdlib/http/api/HttpDispatcher.java:100-102 | exactly RAW_URI (the original TO), TO (the matrix-free URI) and MATRIX_PARAMS are added or overwritten; every other property is kept |
| Dispatch.FindService | native/src/main/java/io/ballerina/stdlib/http/api/HttpDispatcher.java:63-108 | the service returned, the new properties and the new status code are those of FindServiceSpec on the Host header and the old properties and status |
| Dispatch.FindInterceptorService | native/src/main/java/io/ballerina/stdlib/http/api/HttpDispatcher.java:110-154 | the same for FindInterceptorServiceSpec, which writes the URI properties before validation; an absent TO fails after RAW_URI is set to null, a non-string TO fails before any write |
| Dispatch.SetInboundReqProperties | native/src/main/java/io/ballerina/stdlib/http/api/HttpDispatcher.java:156-163 | the message's new properties are InboundReqProperties of the old ones |
| Dispatch.ResourceOf | native/src/main/java/io/ballerina/stdlib/http/api/HttpDispatcher.java:188-200 | a failed service lookup passes its message through; a null service fails with "no Service found to handle the service request"; otherwise the resource dispatcher is given the service and the message's current properties and status, and its result, properties, status and stored RESOURCE_ARGS are the outcome; in the first two cases properties and status are unchanged and no RESOURCE_ARGS is stored |
| Dispatch.StoreDispatched | native/src/main/java/io/ballerina/stdlib/http/api/HttpDispatcher.java:197 | what the resource dispatcher leaves reaches the message: its properties and status, and a new RESOURCE_ARGS with its matched arguments when it stores some, the old RESOURCE_ARGS otherwise |
| Dispatch.FindResource | native/src/main/java/io/ballerina/stdlib/http/api/HttpDispatcher.java:182-200 | with no PROTOCOL property it fails with "protocol not defined in the incoming request" and changes nothing; otherwise the message is annotated as findService(forInterceptors = false) does, and the result, final properties, final status and RESOURCE_ARGS are ResourceOf that lookup's outcome: RESOURCE_ARGS is a new object holding the matched arguments when the resource dispatcher stores some, and is unchanged otherwise |
| Dispatch.FindInterceptorResource | native/src/main/java/io/ballerina/stdlib/http/api/HttpDispatcher.java:203-223 | the same protocol check, then findInterceptorService's annotation, and the result, final properties, final status and RESOURCE_ARGS are ResourceOf its lookup's outcome, as for FindResource |
| DispatchProperties.NoHostTableFails | native/src/main/java/io/ballerina/stdlib/http/api/HttpDispatcher.java:73-80 | with neither the Host header's table nor the default table registered, both lookups fail with the listener error, set status 404 and leave the properties unchanged |
| DispatchProperties.OnlySelectedTableMatters | native/src/main/java/io/ballerina/stdlib/http/api/HttpDispatcher.java:70-75 | both lookups give the same outcome on a registry reduced to the selected host table |
| DispatchProperties.StatusOnlyBecomes404 | native/src/main/java/io/ballerina/stdlib/http/api/HttpDispatcher.java:77-92 | the status code either stays as it was or becomes 404, and 404 only together with a failure |
| DispatchProperties.MissingBasePathIs404 | native/src/main/java/io/ballerina/stdlib/http/api/HttpDispatcher.java:88-95 | with no base path for the validated path, both lookups fail with "no matching service found for path : " + raw path and status 404; findService writes no property, findInterceptorService keeps the URI properties it already wrote |
| DispatchProperties.ResolvedService | native/src/main/java/io/ballerina/stdlib/http/api/HttpDispatcher.java:97-104 | on a base-path match the result is the table's entry for it (null if there is none) and the status is unchanged; without forInterceptors exactly the seven routing properties are written, with their values; with it no property changes |
| DispatchProperties.ServicePropertiesOnlyOnSuccess | native/src/main/java/io/ballerina/stdlib/http/api/HttpDispatcher.java:98-103 | findService changes no property when it fails or resolves for interceptors |
| DispatchProperties.InterceptorWritesUriFirst | native/src/main/java/io/ballerina/stdlib/http/api/HttpDispatcher.java:129-149 | for a string TO, once the host table is chosen, findInterceptorService always writes RAW_URI, TO and MATRIX_PARAMS, and on success also the base-path, sub-path and query properties |
| DispatchProperties.InterceptorAgreesWithService | native/src/main/java/io/ballerina/stdlib/http/api/HttpDispatcher.java:110-154 | findInterceptorService has the same result and status as findService, and on success the same final properties as findService(forInterceptors = false) |
| DispatchProperties.PropertyWritesCommute | native/src/main/java/io/ballerina/stdlib/http/api/HttpDispatcher.java:99-102 | writing the URI properties and the base-path properties in either order gives the same property map |
| ParamFeed.InterceptorsOf | native/src/main/java/io/ballerina/stdlib/http/api/HttpDispatcher.java:399-401 | the context keeps the INTERCEPTORS property iff it is an array, and then keeps its elements |
| ParamFeed.CreateRequestContext | native/src/main/java/io/ballerina/stdlib/http/api/HttpDispatcher.java:396-406 | a fresh context is stored on the message, holding the array-or-null interceptors and the TARGET_SERVICE, with next = false and no index yet |
| ParamFeed.GetRequestCtx | native/src/main/java/io/ballerina/stdlib/http/api/HttpDispatcher.java:357-360 | a cached REQUEST_CONTEXT is returned as it is; otherwise a fresh one as above is created and stored |
| ParamFeed.RequestCtxCreatedOnce | native/src/main/java/io/ballerina/stdlib/http/api/HttpDispatcher.java:357-360 | two calls in a row return the same context object, which is the one stored on the message |
| ParamFeed.PopulatePropertiesForRequestPath | native/src/main/java/io/ballerina/stdlib/http/api/HttpDispatcher.java:362-375 | the context's request index becomes 0 when the message has none, else the message's index − 1; next is reset; the service type is REQUEST_INTERCEPTOR; the interceptor-service flag is whether the resource is an interceptor resource |
| ParamFeed.PopulatePropertiesForResponsePath | native/src/main/java/io/ballerina/stdlib/http/api/HttpDispatcher.java:266-274 | the context's response index becomes 0 when the message has none, else the message's index + 1; next is reset; the service type is RESPONSE_INTERCEPTOR; the interceptor-service flag is true |
| ParamFeed.WildcardFolded | native/src/main/java/io/ballerina/stdlib/http/api/HttpDispatcher.java:449-461 | with no token the arguments are unchanged; otherwise the token's map holds the EXTRA_PATH_INFO segment at the wildcard index; an existing map keeps its other entries; an absent token gets a one-entry map; every other token is untouched |
| ParamFeed.UpdateWildcardToken | native/src/main/java/io/ballerina/stdlib/http/api/HttpDispatcher.java:449-461 | the shared arguments object ends as WildcardFolded of its old contents |
| ParamFeed.SplitAll | native/src/main/java/io/ballerina/stdlib/http/api/HttpDispatcher.java:437 | at least one piece, no piece contains '/', and a string without '/' is its own only piece |
| ParamFeed.JoinSplitAll | native/src/main/java/io/ballerina/stdlib/http/api/HttpDispatcher.java:437 | joining the pieces with '/' gives back the string |
| ParamFeed.DropTrailingEmpty | native/src/main/java/io/ballerina/stdlib/http/api/HttpDispatcher.java:437 | the result is the longest prefix that does not end in an empty piece, and everything dropped is empty |
| ParamFeed.JavaSplit | native/src/main/java/io/ballerina/stdlib/http/api/HttpDispatcher.java:437 | no piece contains '/', a string without '/' splits into itself, and otherwise no trailing piece is empty |
| ParamFeed.JavaSplitRestores | native/src/main/java/io/ballerina/stdlib/http/api/HttpDispatcher.java:437 | split's pieces, followed by the empty pieces it dropped, join back to the input |
| ParamFeed.PathParamValueCases | native/src/main/java/io/ballerina/stdlib/http/api/HttpDispatcher.java:421-445 | a decoding failure escapes with its own message, not the cast prefix; a cast failure carries the "Error in casting path param : " prefix; a scalar is castParam of the decoded text; an array is castParamArray of the split of the decoded text after its first character |
| ParamFeed.PathValuesAt | native/src/main/java/io/ballerina/stdlib/http/api/HttpDispatcher.java:418-446 | when all path parameters succeed, value k is path parameter k's decoded and cast argument, at its own signature index |
| ParamFeed.PathValuesFailure | native/src/main/java/io/ballerina/stdlib/http/api/HttpDispatcher.java:418-446 | a failure is the error of some parameter k, and every parameter before k succeeds |
| ParamFeed.PathValuesFailureSticks | native/src/main/java/io/ballerina/stdlib/http/api/HttpDispatcher.java:418-446 | once a prefix of the path parameters fails, every longer prefix fails with the same error |
| ParamFeed.PathValuesStep | native/src/main/java/io/ballerina/stdlib/http/api/HttpDispatcher.java:420-445 | one more path parameter extends the values or fails with its own error |
| ParamFeed.PathFeed | native/src/main/java/io/ballerina/stdlib/http/api/HttpDispatcher.java:431-442 | value k at slot 2k, true at 2k+1, null after the path slots |
| ParamFeed.CastPathParam | native/src/main/java/io/ballerina/stdlib/http/api/HttpDispatcher.java:434-442 | the cast does what CastDecoded describes, before the prefix is added |
| ParamFeed.PathParam | native/src/main/java/io/ballerina/stdlib/http/api/HttpDispatcher.java:424-445 | one argument decoded and cast gives PathParamValue |
| ParamFeed.PopulatePathParams | native/src/main/java/io/ballerina/stdlib/http/api/HttpDispatcher.java:418-447 | it succeeds iff every path parameter decodes and casts; on failure its message is PathValues' (the first failing parameter's error); on success path parameter k's value is at slot 2k and true at 2k+1; no slot past 2 × count is touched |
| Feed.EffectiveError | native/src/main/java/io/ballerina/stdlib/http/api/HttpDispatcher.java:313-316 | the carried error if there is one, else the placeholder "new error"; never null |
| Feed.Put | native/src/main/java/io/ballerina/stdlib/http/api/HttpDispatcher.java:237-239 | the value at the index, true right after it, every other slot kept |
| Feed.ApplyWritesUnwritten | native/src/main/java/io/ballerina/stdlib/http/api/HttpDispatcher.java:337-349 | after a binder's writes, a slot no write names keeps its value |
| Feed.ApplyWritesLast | native/src/main/java/io/ballerina/stdlib/http/api/HttpDispatcher.java:337-349 | after a binder's writes, a written slot holds the last value written to it |
| Feed.Fold | native/src/main/java/io/ballerina/stdlib/http/api/HttpDispatcher.java:299-352 | the switch never changes the feed's length 2 × arity |
| Feed.RemoteNeverFails | native/src/main/java/io/ballerina/stdlib/http/api/HttpDispatcher.java:232-262 | the remote method's switch cannot fail |
| Feed.ErrorKnown | native/src/main/java/io/ballerina/stdlib/http/api/HttpDispatcher.java:313-320 | the error ends as the carried one, replaced by the placeholder only when none was carried and some parameter is a generic error, so every generic-error slot receives the same error |
| Feed.RequestMadeOnce | native/src/main/java/io/ballerina/stdlib/http/api/HttpDispatcher.java:321-349 | exactly one request object is created when a request, headers or payload parameter is present, and none otherwise |
| Feed.CallerMarked | native/src/main/java/io/ballerina/stdlib/http/api/HttpDispatcher.java:302-307 | the caller's presence field is set iff a resource has a caller parameter; a remote method never sets it |
| Feed.StepKeeps | native/src/main/java/io/ballerina/stdlib/http/api/HttpDispatcher.java:299-352 | a parameter that does not touch a slot leaves it unchanged |
| Feed.UntouchedSlot | native/src/main/java/io/ballerina/stdlib/http/api/HttpDispatcher.java:287 | a slot no parameter touches keeps its initial value |
| Feed.SlotHolds | native/src/main/java/io/ballerina/stdlib/http/api/HttpDispatcher.java:299-336 | a non-recurring parameter's slot holds its value and the next slot holds true, unless a later parameter overwrites them; the values are the caller, the context, the effective error, the response, the request, or a headers object over that same request |
| Feed.PrefixFailureSticks | native/src/main/java/io/ballerina/stdlib/http/api/HttpDispatcher.java:337-348 | a binder failure ends the whole switch with that failure |
| Feed.ApplyWritesTo | native/src/main/java/io/ballerina/stdlib/http/api/HttpDispatcher.java:337-349 | the feed array ends as ApplyWrites of its old contents |
| Feed.FillOtherParams | native/src/main/java/io/ballerina/stdlib/http/api/HttpDispatcher.java:299-352 | the for-loop over the parameters succeeds iff Fold does, with the same message on failure; on success the array, the lazily set error, the request count and the caller flag are Fold's result |
| Feed.SignatureFeed | native/src/main/java/io/ballerina/stdlib/http/api/HttpDispatcher.java:276-354 | a successful resource feed has length 2 × the signature's parameter count |
| Feed.PathSlotsKept | native/src/main/java/io/ballerina/stdlib/http/api/HttpDispatcher.java:293-297 | in a resource's feed, path parameter k's value is at 2k and true at 2k+1, unless another parameter writes there |
| Feed.ParamSlotHolds | native/src/main/java/io/ballerina/stdlib/http/api/HttpDispatcher.java:299-336 | in a resource's feed, each non-recurring parameter's value is at its index and true right after it, unless a later parameter writes there; a generic-error slot holds the carried error or the placeholder |
| Feed.FreeSlotNull | native/src/main/java/io/ballerina/stdlib/http/api/HttpDispatcher.java:287 | a slot past the path slots that no parameter writes is null |
| Feed.PathFeedFilled | native/src/main/java/io/ballerina/stdlib/http/api/HttpDispatcher.java:418-446 | a fresh feed after populatePathParams is exactly PathFeed of the path values |
| Feed.GetCaller | native/src/main/java/io/ballerina/stdlib/http/api/HttpDispatcher.java:385-394 | the CALLER property is reused if present, else the new caller is used; either way it is stored back as CALLER and no other property changes |
| Feed.Blank | native/src/main/java/io/ballerina/stdlib/http/api/HttpDispatcher.java:287 | a fresh feed of the given length, all null |
| Feed.BuildPathFeed | native/src/main/java/io/ballerina/stdlib/http/api/HttpDispatcher.java:287-297 | a fresh feed of 2 × arity null slots; with path parameters the wildcard is folded into the arguments and the path parameters are filled; it fails iff some path parameter fails, with the first failure's message, and otherwise the feed is PathFeed of the path values; with no path parameters the arguments are left unchanged |
| Feed.BuildSignatureFeed | native/src/main/java/io/ballerina/stdlib/http/api/HttpDispatcher.java:286-352 | the wildcard is folded into the arguments only when there are path parameters; the builder fails iff SignatureFeed fails, with its message; on success the fresh array is SignatureFeed's feed; with no path parameters the arguments are left unchanged |
| Feed.GetSignatureParameters | native/src/main/java/io/ballerina/stdlib/http/api/HttpDispatcher.java:276-354 | the context is the cached one, keeping its interceptors, target service and response index, or a fresh one over INTERCEPTORS and TARGET_SERVICE with no response index; it is prepared for the request path; CALLER is stored; the arguments are folded when there are path parameters and left unchanged otherwise; the feed or failure is SignatureFeed over that caller, context and carried error |
| Feed.GetRemoteSignatureParameters | native/src/main/java/io/ballerina/stdlib/http/api/HttpDispatcher.java:225-263 | the context is the cached one, keeping its interceptors, target service and request index, or a fresh one over INTERCEPTORS and TARGET_SERVICE with no request index; it is prepared for the response path; the feed is the remote switch over 2 × paramCount null slots, which succeeds |
| Feed.BuildRemoteFeed | native/src/main/java/io/ballerina/stdlib/http/api/HttpDispatcher.java:230-262 | the fresh array is the remote switch's feed |
| Feed.ShouldDiffer | native/src/main/java/io/ballerina/stdlib/http/api/HttpDispatcher.java:464-466 | true iff a resource was found and it requires payload binding |
| Http.ReturnFeed | native/src/main/java/io/ballerina/stdlib/http/api/HttpRequestInterceptorUnitCallback.java:181-191 | six slots: the value at 0, null at 2, the fifth value at 4, true at every odd slot |
| Http.NewReturnFeed | native/src/main/java/io/ballerina/stdlib/http/api/HttpRequestInterceptorUnitCallback.java:181-191 | the array filled slot by slot equals ReturnFeed |
| RequestCallback.ErrorResultRedispatches | native/src/main/java/io/ballerina/stdlib/http/api/HttpRequestInterceptorUnitCallback.java:55-82 | an error result is stored as INTERCEPTOR_SERVICE_ERROR and the only effect is one dispatch again; nothing is invoked on the caller |
| RequestCallback.FailureCases | native/src/main/java/io/ballerina/stdlib/http/api/HttpRequestInterceptorUnitCallback.java:63-74 | an auth-desugar error has no effect, and neither does a failure after the response was sent; any other failure behaves as an error-valued success |
| RequestCallback.IndexIsMax | native/src/main/java/io/ballerina/stdlib/http/api/HttpRequestInterceptorUnitCallback.java:124-126 | REQUEST_INTERCEPTOR_INDEX becomes the larger of the context index and the message index, and no other property changes |
| RequestCallback.RespondedOnlyRedispatch | native/src/main/java/io/ballerina/stdlib/http/api/HttpRequestInterceptorUnitCallback.java:130-135 | after a response was sent, the effects are one dispatch again if next() was called, else none |
| RequestCallback.NullResultReturnsOnce | native/src/main/java/io/ballerina/stdlib/http/api/HttpRequestInterceptorUnitCallback.java:137-144 | a null result first invokes returnResponse(null), exactly once, then dispatches again iff next() was called |
| RequestCallback.ServiceInRange | native/src/main/java/io/ballerina/stdlib/http/api/HttpRequestInterceptorUnitCallback.java:157-167 | with an index inside the list, the effects are one dispatch again iff the result is the configured interceptor at that index; otherwise release, then the next-interceptor mismatch failure |
| RequestCallback.ServiceBeyondList | native/src/main/java/io/ballerina/stdlib/http/api/HttpRequestInterceptorUnitCallback.java:157-178 | with no list there is no effect; past the list the result is compared with the target service: one dispatch again iff equal, otherwise release, then the target mismatch failure |
| RequestCallback.OtherValueReturns | native/src/main/java/io/ballerina/stdlib/http/api/HttpRequestInterceptorUnitCallback.java:146-150 | any other value gives exactly one returnResponse(value) and nothing else |
| RequestCallback.AtMostOneOfEach | native/src/main/java/io/ballerina/stdlib/http/api/HttpRequestInterceptorUnitCallback.java:124-178 | for every input: at most one dispatch again and one caller invocation; never a failure together with a dispatch; each failure right after an entity release |
| RequestCallback.InterceptorId | native/src/main/java/io/ballerina/stdlib/http/api/HttpRequestInterceptorUnitCallback.java:210-213 | the index used is the larger of the context's and the message's index: at least both, and equal to one of them |
| RequestCallback.Callback.constructor | native/src/main/java/io/ballerina/stdlib/http/api/HttpRequestInterceptorUnitCallback.java:45-52 | the context (possibly null) and caller are read from the message; the log starts empty |
| RequestCallback.Callback.SendRequestToNextService | native/src/main/java/io/ballerina/stdlib/http/api/HttpRequestInterceptorUnitCallback.java:120-122 | appends one dispatch again |
| RequestCallback.Callback.SendFailureResponse | native/src/main/java/io/ballerina/stdlib/http/api/HttpRequestInterceptorUnitCallback.java:96-103 | appends an entity release, then the failure |
| RequestCallback.Callback.ReturnResponse | native/src/main/java/io/ballerina/stdlib/http/api/HttpRequestInterceptorUnitCallback.java:181-191 | appends one returnResponse invocation on the caller with the 6-slot feed |
| RequestCallback.Callback.ReturnErrorResponse | native/src/main/java/io/ballerina/stdlib/http/api/HttpRequestInterceptorUnitCallback.java:84-94 | appends one returnErrorResponse invocation whose feed has the status code at slot 4 |
| RequestCallback.Callback.InvokeErrorInterceptors | native/src/main/java/io/ballerina/stdlib/http/api/HttpRequestInterceptorUnitCallback.java:76-82 | stores the error and appends one dispatch again |
| RequestCallback.Callback.ValidateServiceReturnType | native/src/main/java/io/ballerina/stdlib/http/api/HttpRequestInterceptorUnitCallback.java:157-179 | appends ServiceOutcome's effects, reading the context's target service only when the index is past the list |
| RequestCallback.Callback.ValidateResponseAndProceed | native/src/main/java/io/ballerina/stdlib/http/api/HttpRequestInterceptorUnitCallback.java:124-151 | the new properties and appended effects are Proceed's |
| RequestCallback.Callback.NotifySuccess | native/src/main/java/io/ballerina/stdlib/http/api/HttpRequestInterceptorUnitCallback.java:54-61 | the new properties and appended effects are OnSuccess's |
| RequestCallback.Callback.NotifyFailure | native/src/main/java/io/ballerina/stdlib/http/api/HttpRequestInterceptorUnitCallback.java:63-74 | the new properties and appended effects are OnFailure's |
| ResponseCallback.ErrorResultReturnsErrorResponse | native/src/main/java/io/ballerina/stdlib/http/api/HttpResponseInterceptorUnitCallback.java:59-84 | an error result is stored as INTERCEPTOR_SERVICE_ERROR and the only effect is returnErrorResponse with the current status code at slot 4 |
| ResponseCallback.FailureCases | native/src/main/java/io/ballerina/stdlib/http/api/HttpResponseInterceptorUnitCallback.java:68-76 | an auth-desugar error has no effect; any other failure behaves as an error-valued success, whether or not the response was already sent |
| ResponseCallback.IndexIsMin | native/src/main/java/io/ballerina/stdlib/http/api/HttpResponseInterceptorUnitCallback.java:114-116 | RESPONSE_INTERCEPTOR_INDEX becomes the smaller of the context index and the message index, and no other property changes; only a null result that goes on resets it afterwards |
| ResponseCallback.RespondedDoesNothing | native/src/main/java/io/ballerina/stdlib/http/api/HttpResponseInterceptorUnitCallback.java:119-121 | after a response was sent, nothing happens after the index write |
| ResponseCallback.NullResultForwards | native/src/main/java/io/ballerina/stdlib/http/api/HttpResponseInterceptorUnitCallback.java:123-127 | a null result sets the index to -1 and forwards the response exactly once |
| ResponseCallback.ServiceInRange | native/src/main/java/io/ballerina/stdlib/http/api/HttpResponseInterceptorUnitCallback.java:140-150 | with an index inside the list, the only effect is a forward iff the result is the configured interceptor; otherwise release, then the mismatch failure |
| ResponseCallback.ServiceOutsideListDoesNothing | native/src/main/java/io/ballerina/stdlib/http/api/HttpResponseInterceptorUnitCallback.java:140-153 | with no list, or an index past it, there is no effect |
| ResponseCallback.OtherValueReturns | native/src/main/java/io/ballerina/stdlib/http/api/HttpResponseInterceptorUnitCallback.java:129-133 | any other value gives exactly one returnResponse(value) and no forward |
| ResponseCallback.NeverRedispatches | native/src/main/java/io/ballerina/stdlib/http/api/HttpResponseInterceptorUnitCallback.java:114-153 | for every input: no dispatch again; at most one forward or caller invocation; each failure right after an entity release |
| ResponseCallback.InterceptorId | native/src/main/java/io/ballerina/stdlib/http/api/HttpResponseInterceptorUnitCallback.java:167-170 | the index used is the smaller of the context's and the message's index: at most both, and equal to one of them |
| ResponseCallback.Callback.constructor | native/src/main/java/io/ballerina/stdlib/http/api/HttpResponseInterceptorUnitCallback.java:48-57 | the context (possibly null) is read from the message; caller and response are kept; the log starts empty |
| ResponseCallback.Callback.SendResponseToNextService | native/src/main/java/io/ballerina/stdlib/http/api/HttpResponseInterceptorUnitCallback.java:101-103 | appends one forward of the response through the caller |
| ResponseCallback.Callback.SendFailureResponse | native/src/main/java/io/ballerina/stdlib/http/api/HttpResponseInterceptorUnitCallback.java:86-93 | appends an entity release, then the failure |
| ResponseCallback.Callback.ReturnResponse | native/src/main/java/io/ballerina/stdlib/http/api/HttpResponseInterceptorUnitCallback.java:155-165 | appends one returnResponse invocation with the 6-slot feed |
| ResponseCallback.Callback.ReturnErrorResponse | native/src/main/java/io/ballerina/stdlib/http/api/HttpResponseInterceptorUnitCallback.java:172-182 | appends one returnErrorResponse invocation with the status code at slot 4 |
| ResponseCallback.Callback.InvokeErrorInterceptors | native/src/main/java/io/ballerina/stdlib/http/api/HttpResponseInterceptorUnitCallback.java:78-84 | stores the error and appends one returnErrorResponse invocation |
| ResponseCallback.Callback.ValidateServiceReturnType | native/src/main/java/io/ballerina/stdlib/http/api/HttpResponseInterceptorUnitCallback.java:140-153 | appends ServiceOutcome's effects |
| ResponseCallback.Callback.ValidateResponseAndProceed | native/src/main/java/io/ballerina/stdlib/http/api/HttpResponseInterceptorUnitCallback.java:114-134 | the new properties and appended effects are Proceed's |
| ResponseCallback.Callback.NotifySuccess | native/src/main/java/io/ballerina/stdlib/http/api/HttpResponseInterceptorUnitCallback.java:59-66 | the new properties and appended effects are OnSuccess's |
| ResponseCallback.Callback.NotifyFailure | native/src/main/java/io/ballerina/stdlib/http/api/HttpResponseInterceptorUnitCallback.java:68-76 | the new properties and appended effects are OnFailure's |

## Left out

- Collaborators whose code is not part of this model are parameters with no contract of
  their own. No longest-prefix, percent-decoding or binding semantics are invented for
  them. They are `URIUtil`, `URI.create`, `findTheMostSpecificBasePath`,
  `ResourceDispatcher.findResource`, `castParam`, `castParamArray`, `URLDecoder.decode`
  and the three `populateFeed` binders.
- Values are not really constructed (`ValueCreatorUtils.*`, `createError`,
  `createHeadersObject`, `createRequest`, `createCallerObject`). The request and the new
  caller are given values. A headers object is `HeadersV(request)`. The caller's
  CALLER_PRESENT_FIELD is the `callerMarked` result.
- Feed.GetCaller: `HttpUtil.enrichHttpCallerWithConnectionInfo` and
  `enrichHttpCallerWithNativeData` are not modelled.
- Feed.Binders: `PayloadParam.populateFeed` is modelled as a function of the request
  alone. What it reads from the carrier message is not modelled.
- Exception kinds collapse into `Err(message)`, as the `catch (Exception e)` rewrapping
  does. `BallerinaConnectorException` and `BError` are not distinguished.
- A TO property that is absent passes the cast as null. findInterceptorService then
  stores that null as RAW_URI before matrix extraction fails on it. A TO that is present
  but not a string fails its cast before any write. In both cases the model fails with
  its own message, `RAW_URI_NOT_STRING`; the exception's text is not modelled.
- Dispatch.NoListenerMessage renders a LOCAL_ADDRESS that is not a string as "", where
  the source calls `toString()` (and throws on null).
- Dispatch.HostHeader looks the Host header up under the exact key "host". Case-insensitive
  header names are not modelled.
- The values of `DEFAULT_HOST`, `HttpConstants.EXTRA_PATH_INFO`, `EXTRA_PATH_INDEX` and
  the names `HttpErrorType.DESUGAR_AUTH_ERROR` and `GENERIC_LISTENER_ERROR` are stand-ins.
  HttpConstants and HttpErrorType are not part of this model; only equality with these
  names matters to the proofs.
- `URLDecoder.decode(s, "UTF-8")` cannot throw `UnsupportedEncodingException`, so the
  swallowing catch is not modelled. A malformed escape (`IllegalArgumentException`) is
  uncaught there and escapes without the cast prefix.
- Null dereferences and failed casts that the source leaves to its callers are
  preconditions, not error paths. These are:
  - an unboxed interceptor index that is null;
  - an INTERCEPTOR_SERVICE_ERROR that is not an error;
  - a CALLER that is not an object;
  - a PROTOCOL that is present but not a string (`findResource`, `findInterceptorResource`);
  - a REQUEST_CONTEXT that is null when a callback's non-error path reads it;
  - RESOURCE_ARGS null while there are path parameters;
  - a path parameter or EXTRA_PATH_INFO capture missing from the arguments;
  - a non-recurring index or binder slot outside the feed ("written assuming that they
    are validated").
- ParamFeed.PopulatePropertiesForRequestPath: the index is unbounded; the Java `int`
  wrap-around of `index - 1` at the smallest value is not modelled.
- ParamFeed.PopulatePropertiesForResponsePath: the index is unbounded; the Java `int`
  wrap-around of `index + 1` at the largest value is not modelled.
- ParamFeed.UpdateWildcardToken treats the map it created with
  `Collections.singletonMap` as mutable. In Java a later update of that same map would
  throw `UnsupportedOperationException`.
- `interceptors.get(id)` with a negative id throws. This is recorded as an
  `IndexOutOfRange(id)` effect that ends the continuation.
- `result.equals(interceptor)` is equality of model values: services compare by identity.
- `HttpUtil.methodInvocationCheck` is the message's `responded` field. `HttpUtil.handleFailure`
  is the `HandleFailure` effect, and its response writing (and any change to `responded`)
  is not modelled.
- Asynchrony and threading. Each async call is only an effect in the log. The callback
  passed to `invokeMethodAsyncSequentially` is the public `SendFailureResponse` method
  (its failure path); its success path only prints.
- `printStackTrace` logging.
