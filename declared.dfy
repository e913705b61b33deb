/** `collectDeclaredProviders` and the helpers it calls: which categorised
    providers the media types declared by resource methods, REST-client
    methods and `@PartType` annotations need, and whether a method that
    accepts or produces anything forces every built-in provider.

    The Jandex indexes are replaced by their content: each verb annotation on a
    method, with the method's and its declaring class's `@Consumes` and
    `@Produces` and its `@SseElementType`, followed by the index's `@PartType`
    values. */
module DeclaredProviders {
  import opened Outcomes
  import opened Text
  import opened MediaTypes
  import opened MediaTypeMaps
  import opened ProviderDiscoverers

  /** A `@Consumes` or `@Produces` annotation: absent, or present with a value
      (`None` when the annotation instance carries no value). */
  datatype Annotation = Absent | Present(value: Option<seq<string>>)

  /** One HTTP method annotation on a method, with what the collection reads about the method. */
  datatype Endpoint = Endpoint(
    verb: Verb,
    declaringClass: string,
    methodConsumes: Annotation,
    methodProduces: Annotation,
    classConsumes: Annotation,
    classProduces: Annotation,
    sseElementType: Option<string>)

  /** What one index yields: the annotated methods in index order and the `@PartType` values. */
  datatype ApiIndex = ApiIndex(endpoints: seq<Endpoint>, partTypes: seq<string>)

  /** The outcome of a collection step: `false` with the providers gathered so far, `true`
      (every built-in provider is needed) with the providers gathered before it was decided,
      or the exception a malformed media type raises. */
  datatype Flow = Proceed(registered: set<string>) | UseBuiltin(registered: set<string>) | Malformed(text: string) {
    predicate IsFailure() {
      !Proceed?
    }

    function PropagateFailure(): Flow
      requires !Proceed?
    {
      this
    }

    function Extract(): set<string>
      requires Proceed?
    {
      registered
    }
  }

  /** `MediaType.WILDCARD`, the value a method annotation without a value stands for. */
  const WildcardText := "*/*"
  /** `MediaType.APPLICATION_JSON`, the JSON default. */
  const ApplicationJsonText := "application/json"

  /** The SSE element type: `@SseElementType` first, then the `element-type` parameter. */
  function ElementType(m: MediaType, sseElementType: Option<string>): Option<string> {
    if sseElementType.Some? then sseElementType
    else if ElementTypeParameter in m.parameters then Some(m.parameters[ElementTypeParameter])
    else None
  }

  /** `collectInferredProviders`: the extra providers an SSE media type needs. The error is an
      element type that does not parse. */
  function Inferred(ix: Index, m: MediaType, sseElementType: Option<string>): (r: Result<set<string>, string>)
    ensures r.Ok? ==> r.value <= Values(ix)
    ensures r.Err? ==> Parse(r.error).None?
  {
    if !Matches(ServerSentEvents, m) then Ok({})
    else
      match ElementType(m, sseElementType)
      case None =>
        PossibleWithinValues(ix, TextPlain);
        Ok(Possible(ix, TextPlain))
      case Some(t) =>
        match Parse(t)
        case None => Err(t)
        case Some(e) =>
          PossibleWithinValues(ix, e);
          Ok(Possible(ix, e))
  }

  /** The body of the loop over declared media types: `true` at the wildcard type (compared with
      `equals`, so parameters count), otherwise the candidates for `m` and those it infers. */
  function ForMediaType(acc: set<string>, ix: Index, m: MediaType, sseElementType: Option<string>): (r: Flow)
    ensures !r.Malformed? ==> acc <= r.registered <= acc + Values(ix)
    ensures r.Malformed? ==> Parse(r.text).None?
  {
    if IsWildcardType(m) then UseBuiltin(acc)
    else
      match Inferred(ix, m, sseElementType)
      case Err(t) => Malformed(t)
      case Ok(extra) =>
        PossibleWithinValues(ix, m);
        Proceed(acc + Possible(ix, m) + extra)
  }

  /** `collectDeclaredProvidersForMediaTypeAnnotationInstance` over one index of providers. */
  function ForMediaTypes(acc: set<string>, ix: Index, values: seq<string>, sseElementType: Option<string>): (r: Flow)
    ensures !r.Malformed? ==> acc <= r.registered <= acc + Values(ix)
    ensures r.Malformed? ==> Parse(r.text).None?
    decreases |values|
  {
    if values == [] then Proceed(acc)
    else
      match Parse(values[0])
      case None => Malformed(values[0])
      case Some(m) =>
        var r :- ForMediaType(acc, ix, m, sseElementType);
        ForMediaTypes(r, ix, values[1..], sseElementType)
  }

  /** A single declared value is one step of the loop. */
  lemma SingleMediaType(acc: set<string>, ix: Index, v: string, sseElementType: Option<string>)
    requires Parse(v).Some?
    ensures ForMediaTypes(acc, ix, [v], sseElementType) == ForMediaType(acc, ix, Parse(v).value, sseElementType)
  {
    assert [v][1..] == [];
  }

  /** `collectDeclaredProvidersForMethodAndMediaTypeAnnotation`: one method, one direction. The
      two constant arrays the source passes, the wildcard and `application/json`, appear here
      as the media types they parse to (`MediaTypes.ParseWildcard`, `MediaTypes.ParseApplicationJson`). */
  function ForAnnotation(
    acc: set<string>, ix: Index, methodAnnotation: Annotation, classAnnotation: Annotation,
    includeDefaults: bool, jsonDefault: bool, sseElementType: Option<string>): (r: Flow)
    ensures !r.Malformed? ==> acc <= r.registered <= acc + Values(ix)
  {
    match methodAnnotation
    case Absent =>
      (match classAnnotation
       case Present(value) =>
         if value.Some? then ForMediaTypes(acc, ix, value.value, sseElementType) else Proceed(acc)
       case Absent =>
         if !includeDefaults then Proceed(acc)
         else if jsonDefault then
           (match ForMediaType(acc, ix, ApplicationJson, sseElementType)
            case Malformed(t) => Malformed(t)
            case Proceed(r) => Proceed(r)
            case UseBuiltin(r) => Proceed(r))
         else UseBuiltin(acc))
    case Present(value) =>
      if value.Some? then ForMediaTypes(acc, ix, value.value, sseElementType)
      else ForMediaType(acc, ix, Wildcard, sseElementType)
  }

  /** The body of the loop over annotated methods: request and response against readers and
      writers (swapped for a REST client), then both against the context resolvers. */
  function ForEndpoint(
    acc: set<string>, readers: Index, writers: Index, resolvers: Index,
    e: Endpoint, d: ProviderDiscoverer, isRestClient: bool, jsonDefault: bool): (r: Flow)
    ensures !r.Malformed? ==> acc <= r.registered <= acc + Values(readers) + Values(writers) + Values(resolvers)
  {
    var consumesFrom := if isRestClient then writers else readers;
    var producesFrom := if isRestClient then readers else writers;
    var r1 :- ForAnnotation(acc, consumesFrom, e.methodConsumes, e.classConsumes,
                            d.noConsumesDefaultsToAll, jsonDefault, e.sseElementType);
    var r2 :- ForAnnotation(r1, producesFrom, e.methodProduces, e.classProduces,
                            d.noProducesDefaultsToAll, jsonDefault, e.sseElementType);
    var r3 :- ForAnnotation(r2, resolvers, e.methodConsumes, e.classConsumes,
                            d.noConsumesDefaultsToAll, jsonDefault, e.sseElementType);
    ForAnnotation(r3, resolvers, e.methodProduces, e.classProduces,
                  d.noProducesDefaultsToAll, jsonDefault, e.sseElementType)
  }

  /** The methods carrying the discoverer's verb, in index order. */
  function ForVerb(
    acc: set<string>, readers: Index, writers: Index, resolvers: Index,
    endpoints: seq<Endpoint>, d: ProviderDiscoverer, restClients: set<string>, jsonDefault: bool): (r: Flow)
    ensures !r.Malformed? ==> acc <= r.registered <= acc + Values(readers) + Values(writers) + Values(resolvers)
    decreases |endpoints|
  {
    if endpoints == [] then Proceed(acc)
    else if endpoints[0].verb != d.methodAnnotation then
      ForVerb(acc, readers, writers, resolvers, endpoints[1..], d, restClients, jsonDefault)
    else
      var r :- ForEndpoint(acc, readers, writers, resolvers, endpoints[0], d,
                           endpoints[0].declaringClass in restClients, jsonDefault);
      ForVerb(r, readers, writers, resolvers, endpoints[1..], d, restClients, jsonDefault)
  }

  /** The discoverers in table order. */
  function ForDiscoverers(
    acc: set<string>, readers: Index, writers: Index, resolvers: Index,
    endpoints: seq<Endpoint>, ds: seq<ProviderDiscoverer>, restClients: set<string>, jsonDefault: bool): (r: Flow)
    ensures !r.Malformed? ==> acc <= r.registered <= acc + Values(readers) + Values(writers) + Values(resolvers)
    decreases |ds|
  {
    if ds == [] then Proceed(acc)
    else
      var r :- ForVerb(acc, readers, writers, resolvers, endpoints, ds[0], restClients, jsonDefault);
      ForDiscoverers(r, readers, writers, resolvers, endpoints, ds[1..], restClients, jsonDefault)
  }

  /** The `@PartType` loop: readers and writers for each value that parses; others are skipped. */
  function ForPartTypes(acc: set<string>, readers: Index, writers: Index, partTypes: seq<string>): (r: set<string>)
    ensures acc <= r <= acc + Values(readers) + Values(writers)
    decreases |partTypes|
  {
    if partTypes == [] then acc
    else
      match Parse(partTypes[0])
      case None => ForPartTypes(acc, readers, writers, partTypes[1..])
      case Some(m) =>
        PossibleWithinValues(readers, m);
        PossibleWithinValues(writers, m);
        ForPartTypes(acc + Possible(readers, m) + Possible(writers, m), readers, writers, partTypes[1..])
  }

  /** One index: every discoverer, then its `@PartType` values. */
  function ForIndex(
    acc: set<string>, readers: Index, writers: Index, resolvers: Index,
    index: ApiIndex, restClients: set<string>, jsonDefault: bool): (r: Flow)
    ensures !r.Malformed? ==> acc <= r.registered <= acc + Values(readers) + Values(writers) + Values(resolvers)
  {
    var r :- ForDiscoverers(acc, readers, writers, resolvers, index.endpoints, Discoverers, restClients, jsonDefault);
    Proceed(ForPartTypes(r, readers, writers, index.partTypes))
  }

  /** `collectDeclaredProviders`: the indexes in order; `true` from any of them ends the whole
      collection. */
  function ForIndexes(
    acc: set<string>, readers: Index, writers: Index, resolvers: Index,
    indexes: seq<ApiIndex>, restClients: set<string>, jsonDefault: bool): (r: Flow)
    ensures !r.Malformed? ==> acc <= r.registered <= acc + Values(readers) + Values(writers) + Values(resolvers)
    decreases |indexes|
  {
    if indexes == [] then Proceed(acc)
    else
      var r :- ForIndex(acc, readers, writers, resolvers, indexes[0], restClients, jsonDefault);
      ForIndexes(r, readers, writers, resolvers, indexes[1..], restClients, jsonDefault)
  }

  // ---------------------------------------------------------------------
  // The collection as the source runs it: loops adding to the set of
  // providers to register, returning early on `true`.

  method CollectForMediaTypes(acc: set<string>, providers: MediaTypeMap, values: seq<string>, sseElementType: Option<string>)
    returns (flow: Flow)
    ensures flow == ForMediaTypes(acc, providers.entries, values, sseElementType)
  {
    var registered := acc;
    var i := 0;
    while i < |values|
      invariant 0 <= i <= |values|
      invariant ForMediaTypes(acc, providers.entries, values, sseElementType)
             == ForMediaTypes(registered, providers.entries, values[i..], sseElementType)
    {
      assert values[i..][0] == values[i] && values[i..][1..] == values[i + 1..];
      var parsed := Parse(values[i]);
      if parsed.None? {
        return Malformed(values[i]);
      }
      var m := parsed.value;
      if IsWildcardType(m) {
        return UseBuiltin(registered);
      }
      var extra := Inferred(providers.entries, m, sseElementType);
      if extra.Err? {
        return Malformed(extra.error);
      }
      registered := registered + Possible(providers.entries, m) + extra.value;
      i := i + 1;
    }
    return Proceed(registered);
  }

  method CollectForMethodAndAnnotation(
    acc: set<string>, providers: MediaTypeMap, methodAnnotation: Annotation, classAnnotation: Annotation,
    includeDefaults: bool, jsonDefault: bool, sseElementType: Option<string>)
    returns (flow: Flow)
    ensures flow == ForAnnotation(acc, providers.entries, methodAnnotation, classAnnotation,
                                  includeDefaults, jsonDefault, sseElementType)
  {
    if methodAnnotation.Absent? {
      if classAnnotation.Present? {
        if classAnnotation.value.Some? {
          flow := CollectForMediaTypes(acc, providers, classAnnotation.value.value, sseElementType);
          return;
        }
        return Proceed(acc);
      }
      if !includeDefaults {
        return Proceed(acc);
      }
      if jsonDefault {
        var json := CollectForMediaTypes(acc, providers, [ApplicationJsonText], sseElementType);
        ParseApplicationJson();
        SingleMediaType(acc, providers.entries, ApplicationJsonText, sseElementType);
        if json.Malformed? {
          return json;
        }
        return Proceed(json.registered);
      }
      return UseBuiltin(acc);
    }
    if methodAnnotation.value.Some? {
      flow := CollectForMediaTypes(acc, providers, methodAnnotation.value.value, sseElementType);
    } else {
      flow := CollectForMediaTypes(acc, providers, [WildcardText], sseElementType);
      ParseWildcard();
      SingleMediaType(acc, providers.entries, WildcardText, sseElementType);
    }
  }

  /** The loop over the methods annotated with one discoverer's verb. */
  method CollectForVerb(
    acc: set<string>, readers: MediaTypeMap, writers: MediaTypeMap, resolvers: MediaTypeMap,
    endpoints: seq<Endpoint>, d: ProviderDiscoverer, restClients: set<string>, jsonDefault: bool)
    returns (flow: Flow)
    ensures flow == ForVerb(acc, readers.entries, writers.entries, resolvers.entries, endpoints, d, restClients, jsonDefault)
  {
    var registered := acc;
    var i := 0;
    while i < |endpoints|
      invariant 0 <= i <= |endpoints|
      invariant ForVerb(acc, readers.entries, writers.entries, resolvers.entries, endpoints, d, restClients, jsonDefault)
             == ForVerb(registered, readers.entries, writers.entries, resolvers.entries, endpoints[i..], d, restClients, jsonDefault)
    {
      var e := endpoints[i];
      assert endpoints[i..][0] == e && endpoints[i..][1..] == endpoints[i + 1..];
      if e.verb == d.methodAnnotation {
        var isRestClient := e.declaringClass in restClients;
        var consumesFrom := if isRestClient then writers else readers;
        var producesFrom := if isRestClient then readers else writers;
        var f := CollectForMethodAndAnnotation(registered, consumesFrom, e.methodConsumes, e.classConsumes,
                                               d.noConsumesDefaultsToAll, jsonDefault, e.sseElementType);
        if !f.Proceed? {
          return f;
        }
        f := CollectForMethodAndAnnotation(f.registered, producesFrom, e.methodProduces, e.classProduces,
                                           d.noProducesDefaultsToAll, jsonDefault, e.sseElementType);
        if !f.Proceed? {
          return f;
        }
        f := CollectForMethodAndAnnotation(f.registered, resolvers, e.methodConsumes, e.classConsumes,
                                           d.noConsumesDefaultsToAll, jsonDefault, e.sseElementType);
        if !f.Proceed? {
          return f;
        }
        f := CollectForMethodAndAnnotation(f.registered, resolvers, e.methodProduces, e.classProduces,
                                           d.noProducesDefaultsToAll, jsonDefault, e.sseElementType);
        if !f.Proceed? {
          return f;
        }
        registered := f.registered;
      }
      i := i + 1;
    }
    return Proceed(registered);
  }

  /** The loop over the discoverers; the source visits them in table order. */
  method CollectForDiscoverers(
    acc: set<string>, readers: MediaTypeMap, writers: MediaTypeMap, resolvers: MediaTypeMap,
    endpoints: seq<Endpoint>, ds: seq<ProviderDiscoverer>, restClients: set<string>, jsonDefault: bool)
    returns (flow: Flow)
    ensures flow == ForDiscoverers(acc, readers.entries, writers.entries, resolvers.entries, endpoints, ds, restClients, jsonDefault)
  {
    var registered := acc;
    var i := 0;
    while i < |ds|
      invariant 0 <= i <= |ds|
      invariant ForDiscoverers(acc, readers.entries, writers.entries, resolvers.entries, endpoints, ds, restClients, jsonDefault)
             == ForDiscoverers(registered, readers.entries, writers.entries, resolvers.entries, endpoints, ds[i..], restClients, jsonDefault)
    {
      assert ds[i..][0] == ds[i] && ds[i..][1..] == ds[i + 1..];
      var f := CollectForVerb(registered, readers, writers, resolvers, endpoints, ds[i], restClients, jsonDefault);
      if !f.Proceed? {
        return f;
      }
      registered := f.registered;
      i := i + 1;
    }
    return Proceed(registered);
  }

  /** The `@PartType` loop, which cannot end the collection. */
  method CollectForPartTypes(acc: set<string>, readers: MediaTypeMap, writers: MediaTypeMap, partTypes: seq<string>)
    returns (registered: set<string>)
    ensures registered == ForPartTypes(acc, readers.entries, writers.entries, partTypes)
  {
    registered := acc;
    var j := 0;
    while j < |partTypes|
      invariant 0 <= j <= |partTypes|
      invariant ForPartTypes(acc, readers.entries, writers.entries, partTypes)
             == ForPartTypes(registered, readers.entries, writers.entries, partTypes[j..])
    {
      assert partTypes[j..][0] == partTypes[j] && partTypes[j..][1..] == partTypes[j + 1..];
      var parsed := Parse(partTypes[j]);
      if parsed.Some? {
        registered := registered + Possible(readers.entries, parsed.value) + Possible(writers.entries, parsed.value);
      }
      j := j + 1;
    }
  }

  /** One index: the discoverers in table order, then the `@PartType` values. */
  method CollectFromIndex(
    acc: set<string>, readers: MediaTypeMap, writers: MediaTypeMap, resolvers: MediaTypeMap,
    index: ApiIndex, restClients: set<string>, jsonDefault: bool)
    returns (flow: Flow)
    ensures flow == ForIndex(acc, readers.entries, writers.entries, resolvers.entries, index, restClients, jsonDefault)
  {
    flow := CollectForDiscoverers(acc, readers, writers, resolvers, index.endpoints, Discoverers, restClients, jsonDefault);
    if flow.Proceed? {
      var registered := CollectForPartTypes(flow.registered, readers, writers, index.partTypes);
      flow := Proceed(registered);
    }
  }

  /** `collectDeclaredProviders`: `restClients` are the REST-client interface names. */
  method CollectDeclaredProviders(
    restClients: seq<string>, jsonDefault: bool, providersToRegister: set<string>,
    readers: MediaTypeMap, writers: MediaTypeMap, resolvers: MediaTypeMap, indexes: seq<ApiIndex>)
    returns (flow: Flow)
    ensures flow == ForIndexes(providersToRegister, readers.entries, writers.entries, resolvers.entries,
                               indexes, (set n | n in restClients), jsonDefault)
  {
    var restClientNames := set n | n in restClients;
    var registered := providersToRegister;
    var i := 0;
    while i < |indexes|
      invariant 0 <= i <= |indexes|
      invariant ForIndexes(providersToRegister, readers.entries, writers.entries, resolvers.entries, indexes, restClientNames, jsonDefault)
             == ForIndexes(registered, readers.entries, writers.entries, resolvers.entries, indexes[i..], restClientNames, jsonDefault)
    {
      assert indexes[i..][0] == indexes[i] && indexes[i..][1..] == indexes[i + 1..];
      var f := CollectFromIndex(registered, readers, writers, resolvers, indexes[i], restClientNames, jsonDefault);
      if !f.Proceed? {
        return f;
      }
      registered := f.registered;
      i := i + 1;
    }
    return Proceed(registered);
  }
}
