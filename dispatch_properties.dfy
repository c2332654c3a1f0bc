/** Properties of service resolution: host fallback, 404 on every routing failure,
    the service returned, and which message properties each mode writes. */
module DispatchProperties {
  import opened Http
  import opened Dispatch

  /** The key of the host table a request is resolved in. */
  function SelectedKey<S>(reg: Registry<S>, host: Option<string>): string {
    if host.Some? && host.value in reg.hosts then host.value else DEFAULT_HOST
  }

  /** With neither the Host header's table nor the default table registered, both
      lookups fail with the listener error, set status 404 and write no property. */
  lemma NoHostTableFails<S>(reg: Registry<S>, tools: UriTools,
                            findBase: (string, map<string, S>, seq<string>) -> Option<string>,
                            host: Option<string>, props: map<PropKey, Value>, status: int, forInterceptors: bool)
    requires !(host.Some? && host.value in reg.hosts) && DEFAULT_HOST !in reg.hosts
    ensures FindServiceSpec(reg, tools, findBase, host, props, status, forInterceptors)
            == Resolution(Err(NoListenerMessage(Get(props, LocalAddress))), props, 404)
    ensures FindInterceptorServiceSpec(reg, tools, findBase, host, props, status)
            == Resolution(Err(NoListenerMessage(Get(props, LocalAddress))), props, 404)
  {
  }

  /** Only the selected host table takes part in resolution: resolving against a
      registry that holds that table alone gives the same outcome. */
  lemma OnlySelectedTableMatters<S>(reg: Registry<S>, tools: UriTools,
                                    findBase: (string, map<string, S>, seq<string>) -> Option<string>,
                                    host: Option<string>, props: map<PropKey, Value>, status: int,
                                    forInterceptors: bool)
    requires (host.Some? && host.value in reg.hosts) || DEFAULT_HOST in reg.hosts
    ensures var key := SelectedKey(reg, host);
            var alone := Registry(map[key := reg.hosts[key]]);
            && FindServiceSpec(reg, tools, findBase, host, props, status, forInterceptors)
               == FindServiceSpec(alone, tools, findBase, host, props, status, forInterceptors)
            && FindInterceptorServiceSpec(reg, tools, findBase, host, props, status)
               == FindInterceptorServiceSpec(alone, tools, findBase, host, props, status)
  {
    var key := SelectedKey(reg, host);
    var alone := Registry(map[key := reg.hosts[key]]);
    assert SelectHost(alone, host) == SelectHost(reg, host);
  }

  /** The status code changes only to 404, and only when resolution fails. */
  lemma StatusOnlyBecomes404<S>(reg: Registry<S>, tools: UriTools,
                                findBase: (string, map<string, S>, seq<string>) -> Option<string>,
                                host: Option<string>, props: map<PropKey, Value>, status: int,
                                forInterceptors: bool)
    ensures var r := FindServiceSpec(reg, tools, findBase, host, props, status, forInterceptors);
            r.status == status || (r.status == 404 && r.result.Err?)
    ensures var r := FindInterceptorServiceSpec(reg, tools, findBase, host, props, status);
            r.status == status || (r.status == 404 && r.result.Err?)
  {
  }

  /** When the registry has no base path for the validated path, both lookups fail with
      status 404; findService leaves the properties alone, findInterceptorService has
      already written the URI properties. */
  lemma MissingBasePathIs404<S>(reg: Registry<S>, tools: UriTools,
                                findBase: (string, map<string, S>, seq<string>) -> Option<string>,
                                host: Option<string>, props: map<PropKey, Value>, status: int,
                                forInterceptors: bool, rawUri: string, uri: Uri)
    requires SelectHost(reg, host).Some?
    requires Get(props, To) == StrV(rawUri)
    requires tools.create(tools.extractMatrixParams(rawUri).0) == Ok(uri)
    requires findBase(uri.rawPath, SelectHost(reg, host).value.services,
                      SelectHost(reg, host).value.sortedUris).None?
    ensures FindServiceSpec(reg, tools, findBase, host, props, status, forInterceptors)
            == Resolution(Err(NoServiceForPathMessage(uri.rawPath)), props, 404)
    ensures var (noMatrix, matrix) := tools.extractMatrixParams(rawUri);
            FindInterceptorServiceSpec(reg, tools, findBase, host, props, status)
            == Resolution(Err(NoServiceForPathMessage(uri.rawPath)),
                          UriProperties(props, rawUri, noMatrix, matrix), 404)
  {
  }

  /** On a base-path match the service returned is the table's entry for that base
      path (null if it has none), the status is untouched, and the message carries
      the seven routing properties unless resolving for interceptors. */
  lemma ResolvedService<S>(reg: Registry<S>, tools: UriTools,
                           findBase: (string, map<string, S>, seq<string>) -> Option<string>,
                           host: Option<string>, props: map<PropKey, Value>, status: int,
                           forInterceptors: bool, rawUri: string, uri: Uri, basePath: string)
    requires SelectHost(reg, host).Some?
    requires Get(props, To) == StrV(rawUri)
    requires tools.create(tools.extractMatrixParams(rawUri).0) == Ok(uri)
    requires findBase(uri.rawPath, SelectHost(reg, host).value.services,
                      SelectHost(reg, host).value.sortedUris) == Some(basePath)
    ensures var r := FindServiceSpec(reg, tools, findBase, host, props, status, forInterceptors);
            var services := SelectHost(reg, host).value.services;
            var (noMatrix, matrix) := tools.extractMatrixParams(rawUri);
            && r.status == status
            && (basePath in services ==> r.result == Ok(Some(services[basePath])))
            && (basePath !in services ==> r.result == Ok(None))
            && (forInterceptors ==> r.props == props)
            && (!forInterceptors ==>
                  && r.props.Keys == props.Keys + {BasePath, SubPath, QueryStr, RawQueryStr, RawUri, To, MatrixParams}
                  && r.props[BasePath] == StrV(basePath)
                  && r.props[SubPath] == StrV(tools.subPath(uri.rawPath, basePath))
                  && r.props[QueryStr] == uri.query && r.props[RawQueryStr] == uri.rawQuery
                  && r.props[RawUri] == StrV(rawUri) && r.props[To] == StrV(noMatrix)
                  && r.props[MatrixParams] == MatrixV(matrix))
  {
  }

  /** findService writes no property when it fails, and none at all when resolving for
      interceptors. */
  lemma ServicePropertiesOnlyOnSuccess<S>(reg: Registry<S>, tools: UriTools,
                                          findBase: (string, map<string, S>, seq<string>) -> Option<string>,
                                          host: Option<string>, props: map<PropKey, Value>, status: int,
                                          forInterceptors: bool)
    ensures var r := FindServiceSpec(reg, tools, findBase, host, props, status, forInterceptors);
            (forInterceptors || r.result.Err?) ==> r.props == props
  {
  }

  /** findInterceptorService writes RAW_URI, TO and MATRIX_PARAMS as soon as the raw URI
      is read, whatever happens afterwards, and the base-path properties on success. */
  lemma InterceptorWritesUriFirst<S>(reg: Registry<S>, tools: UriTools,
                                     findBase: (string, map<string, S>, seq<string>) -> Option<string>,
                                     host: Option<string>, props: map<PropKey, Value>, status: int,
                                     rawUri: string)
    requires SelectHost(reg, host).Some?
    requires Get(props, To) == StrV(rawUri)
    ensures var r := FindInterceptorServiceSpec(reg, tools, findBase, host, props, status);
            var (noMatrix, matrix) := tools.extractMatrixParams(rawUri);
            && r.props[RawUri] == StrV(rawUri) && r.props[To] == StrV(noMatrix)
            && r.props[MatrixParams] == MatrixV(matrix)
            && (r.result.Ok? ==> BasePath in r.props && SubPath in r.props
                                 && QueryStr in r.props && RawQueryStr in r.props)
  {
  }

  /** findInterceptorService resolves exactly as findService does, and on success the
      message ends with the same properties as after findService(forInterceptors = false). */
  lemma InterceptorAgreesWithService<S>(reg: Registry<S>, tools: UriTools,
                                        findBase: (string, map<string, S>, seq<string>) -> Option<string>,
                                        host: Option<string>, props: map<PropKey, Value>, status: int,
                                        forInterceptors: bool)
    ensures var i := FindInterceptorServiceSpec(reg, tools, findBase, host, props, status);
            var s := FindServiceSpec(reg, tools, findBase, host, props, status, forInterceptors);
            i.result == s.result && i.status == s.status
    ensures var i := FindInterceptorServiceSpec(reg, tools, findBase, host, props, status);
            var s := FindServiceSpec(reg, tools, findBase, host, props, status, false);
            i.result.Ok? ==> i.props == s.props
  {
    var i := FindInterceptorServiceSpec(reg, tools, findBase, host, props, status);
    var s := FindServiceSpec(reg, tools, findBase, host, props, status, false);
    if i.result.Ok? {
      var table := SelectHost(reg, host).value;
      var rawUri := Get(props, To).s;
      var (noMatrix, matrix) := tools.extractMatrixParams(rawUri);
      var uri := tools.create(noMatrix).value;
      var basePath := findBase(uri.rawPath, table.services, table.sortedUris).value;
      PropertyWritesCommute(props, tools, uri, basePath, rawUri, noMatrix, matrix);
    }
  }

  /** The URI properties and the base-path properties name disjoint keys, so the order
      in which the two lookups write them does not matter. */
  lemma PropertyWritesCommute(props: map<PropKey, Value>, tools: UriTools, uri: Uri, basePath: string,
                              rawUri: string, noMatrix: string, matrix: map<string, map<string, string>>)
    ensures UriProperties(InboundReqProperties(props, tools, uri, basePath), rawUri, noMatrix, matrix)
            == InboundReqProperties(UriProperties(props, rawUri, noMatrix, matrix), tools, uri, basePath)
  {
    SevenWritesCommute(props, StrV(basePath), StrV(tools.subPath(uri.rawPath, basePath)), uri.query, uri.rawQuery,
                       StrV(rawUri), StrV(noMatrix), MatrixV(matrix));
  }

  /** Seven map writes under distinct keys, in either order. */
  lemma SevenWritesCommute(m: map<PropKey, Value>, bp: Value, sp: Value, q: Value, rq: Value,
                           raw: Value, to: Value, mx: Value)
    ensures m[BasePath := bp][SubPath := sp][QueryStr := q][RawQueryStr := rq][RawUri := raw][To := to][MatrixParams := mx]
            == m[RawUri := raw][To := to][MatrixParams := mx][BasePath := bp][SubPath := sp][QueryStr := q][RawQueryStr := rq]
  {
    var m1 := m[RawUri := raw];
    var m2 := m1[To := to];
    WritePastFour(m2, MatrixParams, mx, BasePath, bp, SubPath, sp, QueryStr, q, RawQueryStr, rq);
    WritePastFour(m1, To, to, BasePath, bp, SubPath, sp, QueryStr, q, RawQueryStr, rq);
    WritePastFour(m, RawUri, raw, BasePath, bp, SubPath, sp, QueryStr, q, RawQueryStr, rq);
  }

  /** A write under a key commutes with four writes under other keys. */
  lemma WritePastFour<K, V>(m: map<K, V>, k: K, v: V, k1: K, v1: V, k2: K, v2: V, k3: K, v3: V, k4: K, v4: V)
    requires k != k1 && k != k2 && k != k3 && k != k4
    ensures m[k := v][k1 := v1][k2 := v2][k3 := v3][k4 := v4] == m[k1 := v1][k2 := v2][k3 := v3][k4 := v4][k := v]
  {
    var a := m[k := v][k1 := v1][k2 := v2][k3 := v3][k4 := v4];
    var b := m[k1 := v1][k2 := v2][k3 := v3][k4 := v4][k := v];
    assert a.Keys == b.Keys;
    assert forall j :: j in a ==> a[j] == b[j];
  }
}
