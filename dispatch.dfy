/** Service and resource resolution of HttpDispatcher: host-table selection, matrix
    parameter extraction, URI validation, base-path lookup and message annotation. */
module Dispatch {
  import opened Http

  /** The host key under which services bound to no particular host are registered. */
  const DEFAULT_HOST: string := "b7a.default"
  /** The name of the Host header. */
  const HOST_HEADER: string := "host"

  /** The services registered under one host, with their base paths in sorted order. */
  datatype HostServices<S> = HostServices(services: map<string, S>, sortedUris: seq<string>)

  /** The service registry: host name to that host's services. */
  datatype Registry<S> = Registry(hosts: map<string, HostServices<S>>)

  /** A validated request URI: raw path, decoded query and raw query (each query may
      be null). */
  datatype Uri = Uri(rawPath: string, query: Value, rawQuery: Value)

  /** The URI collaborators the dispatcher calls:
      URIUtil.extractMatrixParams (matrix-free URI and the parameters it removed),
      URI.create (Err carries the IllegalArgumentException message) and
      URIUtil.getSubPath (raw path and base path to sub-path). */
  datatype UriTools = UriTools(
    extractMatrixParams: string -> (string, map<string, map<string, string>>),
    create: string -> Result<Uri>,
    subPath: (string, string) -> string)

  /** What a resolution produces: the result (a service, possibly null, or an error),
      the message's new property map and its new status code. */
  datatype Resolution<S> = Resolution(result: Result<Option<S>>, props: map<PropKey, Value>, status: int)

  /** The Host header, or null. */
  function HostHeader(headers: map<string, string>): (r: Option<string>)
    ensures r.Some? <==> HOST_HEADER in headers
    ensures r.Some? ==> r.value == headers[HOST_HEADER]
  {
    if HOST_HEADER in headers then Some(headers[HOST_HEADER]) else None
  }

  /** The host table a request is resolved in: the literal Host header's table when the
      header is present and registered, otherwise the default host's table when that
      is registered, otherwise none. */
  function SelectHost<S>(reg: Registry<S>, host: Option<string>): (r: Option<HostServices<S>>)
    ensures host.Some? && host.value in reg.hosts ==> r == Some(reg.hosts[host.value])
    ensures !(host.Some? && host.value in reg.hosts) && DEFAULT_HOST in reg.hosts ==>
              r == Some(reg.hosts[DEFAULT_HOST])
    ensures r.None? <==> !(host.Some? && host.value in reg.hosts) && DEFAULT_HOST !in reg.hosts
  {
    if host.Some? && host.value in reg.hosts then Some(reg.hosts[host.value])
    else if DEFAULT_HOST in reg.hosts then Some(reg.hosts[DEFAULT_HOST])
    else None
  }

  /** Message of the error raised when no host table applies; the local address is
      rendered when it is a string. */
  function NoListenerMessage(localAddress: Value): (m: string)
    ensures |NO_LISTENER_PREFIX| <= |m| && m[..|NO_LISTENER_PREFIX|] == NO_LISTENER_PREFIX
    ensures localAddress.StrV? ==> m[|NO_LISTENER_PREFIX|..] == localAddress.s
  {
    NO_LISTENER_PREFIX + (if localAddress.StrV? then localAddress.s else "")
  }

  const NO_LISTENER_PREFIX: string := "no service has registered for listener : "

  function NoServiceForPathMessage(rawPath: string): string {
    "no matching service found for path : " + rawPath
  }

  /** Message used when the TO property does not hold a string. */
  const RAW_URI_NOT_STRING: string := "request URI is not a string"

  /** getValidatedURI: URI.create, failing with the IllegalArgumentException's message. */
  function ValidatedUri(tools: UriTools, uriStr: string): (r: Result<Uri>)
    ensures r.Ok? <==> tools.create(uriStr).Ok?
    ensures r.Ok? ==> r.value == tools.create(uriStr).value
    ensures r.Err? ==> r.message == tools.create(uriStr).message
  {
    tools.create(uriStr)
  }

  /** servicesOnInterface.get(basePath): null when the key is not registered. */
  function Lookup<S>(services: map<string, S>, basePath: string): (r: Option<S>)
    ensures r.Some? <==> basePath in services
    ensures r.Some? ==> r.value == services[basePath]
  {
    if basePath in services then Some(services[basePath]) else None
  }

  /** setInboundReqProperties: BASE_PATH, SUB_PATH, QUERY_STR and RAW_QUERY_STR. */
  function InboundReqProperties(props: map<PropKey, Value>, tools: UriTools, uri: Uri, basePath: string)
    : (r: map<PropKey, Value>)
    ensures r.Keys == props.Keys + {BasePath, SubPath, QueryStr, RawQueryStr}
    ensures r[BasePath] == StrV(basePath) && r[SubPath] == StrV(tools.subPath(uri.rawPath, basePath))
    ensures r[QueryStr] == uri.query && r[RawQueryStr] == uri.rawQuery
    ensures forall k :: k in props && k !in {BasePath, SubPath, QueryStr, RawQueryStr} ==> r[k] == props[k]
  {
    props[BasePath := StrV(basePath)][SubPath := StrV(tools.subPath(uri.rawPath, basePath))]
         [QueryStr := uri.query][RawQueryStr := uri.rawQuery]
  }

  /** RAW_URI (the original TO), TO (the matrix-free URI) and MATRIX_PARAMS. */
  function UriProperties(props: map<PropKey, Value>, rawUri: string, uriNoMatrix: string,
                         matrix: map<string, map<string, string>>): (r: map<PropKey, Value>)
    ensures r.Keys == props.Keys + {RawUri, To, MatrixParams}
    ensures r[RawUri] == StrV(rawUri) && r[To] == StrV(uriNoMatrix) && r[MatrixParams] == MatrixV(matrix)
    ensures forall k :: k in props && k !in {RawUri, To, MatrixParams} ==> r[k] == props[k]
  {
    props[RawUri := StrV(rawUri)][To := StrV(uriNoMatrix)][MatrixParams := MatrixV(matrix)]
  }

  /** findService, as a function of the registry, the collaborators, the Host header and
      the message's properties and status code. */
  function FindServiceSpec<S>(reg: Registry<S>, tools: UriTools,
                              findBase: (string, map<string, S>, seq<string>) -> Option<string>,
                              host: Option<string>, props: map<PropKey, Value>, status: int,
                              forInterceptors: bool): Resolution<S>
  {
    match SelectHost(reg, host)
    case None => Resolution(Err(NoListenerMessage(Get(props, LocalAddress))), props, 404)
    case Some(table) =>
      if !Get(props, To).StrV? then Resolution(Err(RAW_URI_NOT_STRING), props, status)
      else
        var rawUri := Get(props, To).s;
        var (uriNoMatrix, matrix) := tools.extractMatrixParams(rawUri);
        match ValidatedUri(tools, uriNoMatrix)
        case Err(m) => Resolution(Err(m), props, status)
        case Ok(uri) =>
          match findBase(uri.rawPath, table.services, table.sortedUris)
          case None => Resolution(Err(NoServiceForPathMessage(uri.rawPath)), props, 404)
          case Some(basePath) =>
            var props' := if forInterceptors then props
                          else UriProperties(InboundReqProperties(props, tools, uri, basePath),
                                             rawUri, uriNoMatrix, matrix);
            Resolution(Ok(Lookup(table.services, basePath)), props', status)
  }

  /** findInterceptorService: as findService, but the URI properties are written before
      validation and the base-path properties on every success. */
  function FindInterceptorServiceSpec<S>(reg: Registry<S>, tools: UriTools,
                                         findBase: (string, map<string, S>, seq<string>) -> Option<string>,
                                         host: Option<string>, props: map<PropKey, Value>,
                                         status: int): Resolution<S>
  {
    match SelectHost(reg, host)
    case None => Resolution(Err(NoListenerMessage(Get(props, LocalAddress))), props, 404)
    case Some(table) =>
      if Get(props, To).Nil? then Resolution(Err(RAW_URI_NOT_STRING), props[RawUri := Nil], status)
      else if !Get(props, To).StrV? then Resolution(Err(RAW_URI_NOT_STRING), props, status)
      else
        var rawUri := Get(props, To).s;
        var (uriNoMatrix, matrix) := tools.extractMatrixParams(rawUri);
        var props1 := UriProperties(props, rawUri, uriNoMatrix, matrix);
        match ValidatedUri(tools, uriNoMatrix)
        case Err(m) => Resolution(Err(m), props1, status)
        case Ok(uri) =>
          match findBase(uri.rawPath, table.services, table.sortedUris)
          case None => Resolution(Err(NoServiceForPathMessage(uri.rawPath)), props1, 404)
          case Some(basePath) =>
            Resolution(Ok(Lookup(table.services, basePath)),
                       InboundReqProperties(props1, tools, uri, basePath), status)
  }

  /** findService on the message itself: selects the table, validates the URI, asks for
      the most specific base path and annotates the message. */
  method FindService<S>(reg: Registry<S>, tools: UriTools,
                        findBase: (string, map<string, S>, seq<string>) -> Option<string>,
                        msg: Message, forInterceptors: bool) returns (r: Result<Option<S>>)
    modifies msg`props, msg`statusCode
    ensures Resolution(r, msg.props, msg.statusCode)
            == FindServiceSpec(reg, tools, findBase, HostHeader(msg.headers), old(msg.props),
                               old(msg.statusCode), forInterceptors)
  {
    var hostName := HostHeader(msg.headers);
    var table: HostServices<S>;
    if hostName.Some? && hostName.value in reg.hosts {
      table := reg.hosts[hostName.value];
    } else if DEFAULT_HOST in reg.hosts {
      table := reg.hosts[DEFAULT_HOST];
    } else {
      msg.statusCode := 404;
      return Err(NoListenerMessage(msg.Prop(LocalAddress)));
    }
    if !msg.Prop(To).StrV? {
      return Err(RAW_URI_NOT_STRING);
    }
    var rawUri := msg.Prop(To).s;
    var (uriNoMatrix, matrix) := tools.extractMatrixParams(rawUri);
    var validated := ValidatedUri(tools, uriNoMatrix);
    if validated.Err? {
      return Err(validated.message);
    }
    var uri := validated.value;
    var basePath := findBase(uri.rawPath, table.services, table.sortedUris);
    if basePath.None? {
      msg.statusCode := 404;
      return Err(NoServiceForPathMessage(uri.rawPath));
    }
    var service := Lookup(table.services, basePath.value);
    if !forInterceptors {
      SetInboundReqProperties(msg, tools, uri, basePath.value);
      msg.props := msg.props[RawUri := StrV(rawUri)];
      msg.props := msg.props[To := StrV(uriNoMatrix)];
      msg.props := msg.props[MatrixParams := MatrixV(matrix)];
    }
    return Ok(service);
  }

  /** findInterceptorService on the message itself. */
  method FindInterceptorService<S>(reg: Registry<S>, tools: UriTools,
                                   findBase: (string, map<string, S>, seq<string>) -> Option<string>,
                                   msg: Message) returns (r: Result<Option<S>>)
    modifies msg`props, msg`statusCode
    ensures Resolution(r, msg.props, msg.statusCode)
            == FindInterceptorServiceSpec(reg, tools, findBase, HostHeader(msg.headers),
                                          old(msg.props), old(msg.statusCode))
  {
    var hostName := HostHeader(msg.headers);
    var table: HostServices<S>;
    if hostName.Some? && hostName.value in reg.hosts {
      table := reg.hosts[hostName.value];
    } else if DEFAULT_HOST in reg.hosts {
      table := reg.hosts[DEFAULT_HOST];
    } else {
      msg.statusCode := 404;
      return Err(NoListenerMessage(msg.Prop(LocalAddress)));
    }
    if msg.Prop(To).Nil? {
      msg.props := msg.props[RawUri := Nil];
      return Err(RAW_URI_NOT_STRING);
    }
    if !msg.Prop(To).StrV? {
      return Err(RAW_URI_NOT_STRING);
    }
    var rawUri := msg.Prop(To).s;
    msg.props := msg.props[RawUri := StrV(rawUri)];
    var (uriNoMatrix, matrix) := tools.extractMatrixParams(rawUri);
    msg.props := msg.props[To := StrV(uriNoMatrix)];
    msg.props := msg.props[MatrixParams := MatrixV(matrix)];
    var validated := ValidatedUri(tools, uriNoMatrix);
    if validated.Err? {
      return Err(validated.message);
    }
    var uri := validated.value;
    var basePath := findBase(uri.rawPath, table.services, table.sortedUris);
    if basePath.None? {
      msg.statusCode := 404;
      return Err(NoServiceForPathMessage(uri.rawPath));
    }
    var service := Lookup(table.services, basePath.value);
    SetInboundReqProperties(msg, tools, uri, basePath.value);
    return Ok(service);
  }

  /** setInboundReqProperties on the message. */
  method SetInboundReqProperties(msg: Message, tools: UriTools, uri: Uri, basePath: string)
    modifies msg`props
    ensures msg.props == InboundReqProperties(old(msg.props), tools, uri, basePath)
  {
    var subPath := tools.subPath(uri.rawPath, basePath);
    msg.props := msg.props[BasePath := StrV(basePath)];
    msg.props := msg.props[SubPath := StrV(subPath)];
    msg.props := msg.props[QueryStr := uri.query];
    msg.props := msg.props[RawQueryStr := uri.rawQuery];
  }

  const NO_PROTOCOL: string := "protocol not defined in the incoming request"
  const NO_SERVICE: string := "no Service found to handle the service request"

  /** What resource dispatch leaves: the resource or an error, the message's property map
      and status code as the resource dispatcher leaves them, and the RESOURCE_ARGS map
      it stores on the message (None when it stores none). */
  datatype Dispatched<R> = Dispatched(result: Result<R>, props: map<PropKey, Value>, status: int,
                                      args: Option<map<string, map<int, string>>>)

  /** findResource / findInterceptorResource after the service lookup: a null service is
      an error, otherwise ResourceDispatcher.findResource decides, on the message. */
  function ResourceOf<S, R>(service: Result<Option<S>>,
                            findRes: (S, map<PropKey, Value>, int) -> Dispatched<R>,
                            props: map<PropKey, Value>, status: int): (r: Dispatched<R>)
    ensures service.Err? ==> r == Dispatched(Err(service.message), props, status, None)
    ensures service == Ok(None) ==> r == Dispatched(Err(NO_SERVICE), props, status, None)
    ensures service.Ok? && service.value.Some? ==> r == findRes(service.value.value, props, status)
  {
    match service
    case Err(m) => Dispatched(Err(m), props, status, None)
    case Ok(None) => Dispatched(Err(NO_SERVICE), props, status, None)
    case Ok(Some(s)) => findRes(s, props, status)
  }

  /** Stores what the resource dispatcher leaves on the message: its properties, its
      status code and, when it matched arguments, a new RESOURCE_ARGS holding them. */
  method StoreDispatched<R>(msg: Message, d: Dispatched<R>) returns (r: Result<R>)
    modifies msg`props, msg`statusCode, msg`resourceArgs
    ensures r == d.result && msg.props == d.props && msg.statusCode == d.status
    ensures d.args.None? ==> msg.resourceArgs == old(msg.resourceArgs)
    ensures d.args.Some? ==> msg.resourceArgs != null && fresh(msg.resourceArgs)
                             && msg.resourceArgs.args == d.args.value
  {
    msg.props, msg.statusCode := d.props, d.status;
    if d.args.Some? {
      msg.resourceArgs := new ResourceArguments(d.args.value);
    }
    r := d.result;
  }

  /** findResource: the protocol check, then findService (annotating the message), then
      ResourceDispatcher.findResource on the annotated message. */
  method FindResource<S, R>(reg: Registry<S>, tools: UriTools,
                            findBase: (string, map<string, S>, seq<string>) -> Option<string>,
                            findRes: (S, map<PropKey, Value>, int) -> Dispatched<R>,
                            msg: Message) returns (r: Result<R>)
    requires msg.Prop(Protocol).Nil? || msg.Prop(Protocol).StrV?
    modifies msg`props, msg`statusCode, msg`resourceArgs
    ensures old(msg.Prop(Protocol)) == Nil ==>
              && r == Err(NO_PROTOCOL) && msg.props == old(msg.props) && msg.statusCode == old(msg.statusCode)
              && msg.resourceArgs == old(msg.resourceArgs)
    ensures old(msg.Prop(Protocol)) != Nil ==>
              var res := FindServiceSpec(reg, tools, findBase, HostHeader(msg.headers),
                                         old(msg.props), old(msg.statusCode), false);
              var d := ResourceOf(res.result, findRes, res.props, res.status);
              && r == d.result && msg.props == d.props && msg.statusCode == d.status
              && (d.args.None? ==> msg.resourceArgs == old(msg.resourceArgs))
              && (d.args.Some? ==> msg.resourceArgs != null && fresh(msg.resourceArgs)
                                   && msg.resourceArgs.args == d.args.value)
  {
    if msg.Prop(Protocol) == Nil {
      return Err(NO_PROTOCOL);
    }
    var service := FindService(reg, tools, findBase, msg, false);
    var d := ResourceOf(service, findRes, msg.props, msg.statusCode);
    r := StoreDispatched(msg, d);
  }

  /** findInterceptorResource: as findResource, with findInterceptorService. */
  method FindInterceptorResource<S, R>(reg: Registry<S>, tools: UriTools,
                                       findBase: (string, map<string, S>, seq<string>) -> Option<string>,
                                       findRes: (S, map<PropKey, Value>, int) -> Dispatched<R>,
                                       msg: Message) returns (r: Result<R>)
    requires msg.Prop(Protocol).Nil? || msg.Prop(Protocol).StrV?
    modifies msg`props, msg`statusCode, msg`resourceArgs
    ensures old(msg.Prop(Protocol)) == Nil ==>
              && r == Err(NO_PROTOCOL) && msg.props == old(msg.props) && msg.statusCode == old(msg.statusCode)
              && msg.resourceArgs == old(msg.resourceArgs)
    ensures old(msg.Prop(Protocol)) != Nil ==>
              var res := FindInterceptorServiceSpec(reg, tools, findBase, HostHeader(msg.headers),
                                                    old(msg.props), old(msg.statusCode));
              var d := ResourceOf(res.result, findRes, res.props, res.status);
              && r == d.result && msg.props == d.props && msg.statusCode == d.status
              && (d.args.None? ==> msg.resourceArgs == old(msg.resourceArgs))
              && (d.args.Some? ==> msg.resourceArgs != null && fresh(msg.resourceArgs)
                                   && msg.resourceArgs.args == d.args.value)
  {
    if msg.Prop(Protocol) == Nil {
      return Err(NO_PROTOCOL);
    }
    var service := FindInterceptorService(reg, tools, findBase, msg);
    var d := ResourceOf(service, findRes, msg.props, msg.statusCode);
    r := StoreDispatched(msg, d);
  }
}
