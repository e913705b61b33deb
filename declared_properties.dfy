/** What the declared-provider collection promises: the media types of one
    annotation contribute exactly their candidates until the first wildcard type,
    which ends everything; method annotations take precedence over class
    annotations, which take precedence over the verb default and JSON default;
    REST clients swap readers and writers; context resolvers serve both
    directions; SSE media types add providers for their element type; and
    `@PartType` values add readers and writers, skipping malformed ones. */
module DeclaredProperties {
  import opened Outcomes
  import opened Text
  import opened MediaTypes
  import opened MediaTypeMaps
  import opened ProviderDiscoverers
  import opened DeclaredProviders

  // ---------------------------------------------------------------------
  // A reference definition of what a list of declared media types adds.

  /** A declared value the collection neither stops at nor fails on. */
  predicate Accepted(v: string, sseElementType: Option<string>) {
    && Parse(v).Some?
    && !IsWildcardType(Parse(v).value)
    && (Matches(ServerSentEvents, Parse(v).value) && ElementType(Parse(v).value, sseElementType).Some?
        ==> Parse(ElementType(Parse(v).value, sseElementType).value).Some?)
  }

  predicate AllAccepted(values: seq<string>, sseElementType: Option<string>) {
    forall i | 0 <= i < |values| :: Accepted(values[i], sseElementType)
  }

  /** SSE inference fails only on an element type that does not parse, whatever the providers. */
  lemma AcceptedInfers(ix: Index, v: string, sseElementType: Option<string>)
    requires Accepted(v, sseElementType)
    ensures Inferred(ix, Parse(v).value, sseElementType).Ok?
  {
  }

  /** What one accepted value adds: the candidates for its type and those inferred from it. */
  function Contribution(ix: Index, v: string, sseElementType: Option<string>): set<string>
    requires Accepted(v, sseElementType)
  {
    AcceptedInfers(ix, v, sseElementType);
    Possible(ix, Parse(v).value) + Inferred(ix, Parse(v).value, sseElementType).value
  }

  /** Everything the accepted values among `values` add, in no particular order. */
  ghost function Candidates(ix: Index, values: seq<string>, sseElementType: Option<string>): set<string> {
    set v, p | v in values && Accepted(v, sseElementType) && p in Contribution(ix, v, sseElementType) :: p
  }

  lemma {:induction false} CandidatesCons(ix: Index, values: seq<string>, sseElementType: Option<string>)
    requires values != [] && Accepted(values[0], sseElementType)
    ensures Candidates(ix, values, sseElementType)
         == Contribution(ix, values[0], sseElementType) + Candidates(ix, values[1..], sseElementType)
  {
    assert forall v :: v in values <==> v == values[0] || v in values[1..] by {
      assert values == [values[0]] + values[1..];
    }
  }

  lemma {:induction false} AllAcceptedTail(values: seq<string>, sseElementType: Option<string>)
    requires values != [] && AllAccepted(values, sseElementType)
    ensures Accepted(values[0], sseElementType) && AllAccepted(values[1..], sseElementType)
  {
    var tail := values[1..];
    forall i | 0 <= i < |tail| ensures Accepted(tail[i], sseElementType) {
      assert tail[i] == values[i + 1];
    }
  }

  /** One step of the fold over an accepted value. */
  lemma {:induction false} ForMediaTypesStep(acc: set<string>, ix: Index, values: seq<string>, sseElementType: Option<string>)
    requires values != [] && Accepted(values[0], sseElementType)
    ensures ForMediaTypes(acc, ix, values, sseElementType)
         == ForMediaTypes(acc + Contribution(ix, values[0], sseElementType), ix, values[1..], sseElementType)
  {
    var m := Parse(values[0]).value;
    AcceptedInfers(ix, values[0], sseElementType);
    assert ForMediaType(acc, ix, m, sseElementType) == Proceed(acc + Contribution(ix, values[0], sseElementType));
  }

  /** Values that are all accepted add exactly their candidates, and the answer is `false`. */
  lemma {:induction false} ForMediaTypesAccepted(acc: set<string>, ix: Index, values: seq<string>, sseElementType: Option<string>)
    requires AllAccepted(values, sseElementType)
    ensures ForMediaTypes(acc, ix, values, sseElementType) == Proceed(acc + Candidates(ix, values, sseElementType))
    decreases |values|
  {
    if values == [] {
      assert Candidates(ix, values, sseElementType) == {};
    } else {
      AllAcceptedTail(values, sseElementType);
      ForMediaTypesStep(acc, ix, values, sseElementType);
      ForMediaTypesAccepted(acc + Contribution(ix, values[0], sseElementType), ix, values[1..], sseElementType);
      CandidatesCons(ix, values, sseElementType);
    }
  }

  /** The fold over `xs + ys` is the fold over `xs`, continued over `ys` only on `false`. */
  lemma {:induction false} ForMediaTypesConcat(acc: set<string>, ix: Index, xs: seq<string>, ys: seq<string>, sseElementType: Option<string>)
    ensures ForMediaTypes(acc, ix, xs + ys, sseElementType)
         == (var f := ForMediaTypes(acc, ix, xs, sseElementType);
             if f.Proceed? then ForMediaTypes(f.registered, ix, ys, sseElementType) else f)
    decreases |xs|
  {
    if xs == [] {
      assert xs + ys == ys;
    } else {
      assert (xs + ys)[0] == xs[0] && (xs + ys)[1..] == xs[1..] + ys;
      match Parse(xs[0]) {
        case None =>
        case Some(m) =>
          var f := ForMediaType(acc, ix, m, sseElementType);
          if f.Proceed? {
            ForMediaTypesConcat(f.registered, ix, xs[1..], ys, sseElementType);
          }
      }
    }
  }

  /** The first wildcard type ends the collection with `true`: the values after it are not looked at,
      and the providers the values before it added are kept. */
  lemma WildcardStops(acc: set<string>, ix: Index, values: seq<string>, sseElementType: Option<string>, i: int)
    requires 0 <= i < |values|
    requires AllAccepted(values[..i], sseElementType)
    requires Parse(values[i]).Some? && IsWildcardType(Parse(values[i]).value)
    ensures ForMediaTypes(acc, ix, values, sseElementType)
         == UseBuiltin(acc + Candidates(ix, values[..i], sseElementType))
  {
    assert values == values[..i] + values[i..];
    ForMediaTypesConcat(acc, ix, values[..i], values[i..], sseElementType);
    ForMediaTypesAccepted(acc, ix, values[..i], sseElementType);
    assert values[i..][0] == values[i];
  }

  /** A value that does not parse, reached before any wildcard type, is the exception the collection raises. */
  lemma MalformedStops(acc: set<string>, ix: Index, values: seq<string>, sseElementType: Option<string>, i: int)
    requires 0 <= i < |values|
    requires AllAccepted(values[..i], sseElementType)
    requires Parse(values[i]).None?
    ensures ForMediaTypes(acc, ix, values, sseElementType) == Malformed(values[i])
  {
    assert values == values[..i] + values[i..];
    ForMediaTypesConcat(acc, ix, values[..i], values[i..], sseElementType);
    ForMediaTypesAccepted(acc, ix, values[..i], sseElementType);
    assert values[i..][0] == values[i];
  }

  /** With every value well formed, the answer is `true` exactly when one of them is the bare
      wildcard type: full equality is used, so a wildcard with a parameter does not count. */
  lemma {:induction false} FallbackExactlyOnWildcard(acc: set<string>, ix: Index, values: seq<string>, sseElementType: Option<string>)
    requires forall i | 0 <= i < |values| :: Parse(values[i]).Some? && Inferred(ix, Parse(values[i]).value, sseElementType).Ok?
    ensures ForMediaTypes(acc, ix, values, sseElementType).UseBuiltin?
        <==> exists i | 0 <= i < |values| :: Parse(values[i]) == Some(Wildcard)
    decreases |values|
  {
    if values != [] {
      var m := Parse(values[0]).value;
      var tail := values[1..];
      WildcardTypeExactly(m);
      if !IsWildcardType(m) {
        var extra := Inferred(ix, m, sseElementType).value;
        assert ForMediaType(acc, ix, m, sseElementType) == Proceed(acc + Possible(ix, m) + extra);
        forall i | 0 <= i < |tail|
          ensures Parse(tail[i]).Some? && Inferred(ix, Parse(tail[i]).value, sseElementType).Ok?
        {
          assert tail[i] == values[i + 1];
        }
        FallbackExactlyOnWildcard(acc + Possible(ix, m) + extra, ix, tail, sseElementType);
        if exists i | 0 <= i < |values| :: Parse(values[i]) == Some(Wildcard) {
          var i :| 0 <= i < |values| && Parse(values[i]) == Some(Wildcard);
          assert tail[i - 1] == values[i];
        }
        if exists i | 0 <= i < |tail| :: Parse(tail[i]) == Some(Wildcard) {
          var i :| 0 <= i < |tail| && Parse(tail[i]) == Some(Wildcard);
          assert tail[i] == values[i + 1];
        }
      }
    }
  }

  // ---------------------------------------------------------------------
  // SSE element-type inference.

  /** A media type that is not `text/event-stream` (ignoring case and parameters) infers nothing. */
  lemma NonSseInfersNothing(ix: Index, m: MediaType, sseElementType: Option<string>)
    requires !Matches(ServerSentEvents, m)
    ensures Inferred(ix, m, sseElementType) == Ok({})
  {
  }

  /** `@SseElementType` wins over the `element-type` parameter. */
  lemma SseAnnotationOverridesParameter(ix: Index, m: MediaType, t: string, ps: map<string, string>)
    ensures Inferred(ix, m, Some(t)) == Inferred(ix, m.(parameters := ps), Some(t))
  {
    MatchesIgnoresParameters(ServerSentEvents, m, ServerSentEvents.parameters, ps);
  }

  /** Without the annotation, the `element-type` parameter is used as if it had been annotated. */
  lemma SseParameterFallback(ix: Index, m: MediaType)
    requires ElementTypeParameter in m.parameters
    ensures Inferred(ix, m, None) == Inferred(ix, m, Some(m.parameters[ElementTypeParameter]))
  {
  }

  /** An SSE media type whose `@SseElementType` parses needs exactly the candidates of that
      element type, and one whose annotation does not parse raises the parse error. */
  lemma SseElementTypeCandidates(ix: Index, m: MediaType, t: string)
    requires Matches(ServerSentEvents, m)
    ensures Parse(t).Some? ==> Inferred(ix, m, Some(t)) == Ok(Possible(ix, Parse(t).value))
    ensures Parse(t).None? ==> Inferred(ix, m, Some(t)) == Err(t)
  {
  }

  /** Without the annotation, an SSE media type with an `element-type` parameter needs exactly
      the candidates of the parameter's type, or raises its parse error. */
  lemma SseParameterCandidates(ix: Index, m: MediaType)
    requires Matches(ServerSentEvents, m) && ElementTypeParameter in m.parameters
    ensures var t := m.parameters[ElementTypeParameter];
      && (Parse(t).Some? ==> Inferred(ix, m, None) == Ok(Possible(ix, Parse(t).value)))
      && (Parse(t).None? ==> Inferred(ix, m, None) == Err(t))
  {
  }

  /** With neither, an SSE media type needs the `text/plain` providers. */
  lemma SseTextPlainDefault(ix: Index, m: MediaType)
    requires Matches(ServerSentEvents, m) && ElementTypeParameter !in m.parameters
    ensures Inferred(ix, m, None) == Ok(Possible(ix, TextPlain))
  {
  }

  lemma SseIsNotWildcard(m: MediaType)
    requires Matches(ServerSentEvents, m)
    ensures !IsWildcardType(m)
  {
    MatchesServerSentEvents(m);
    WildcardTypeExactly(m);
    LowerOfLower("*");
  }

  /** An SSE media type adds the providers for itself and, on top, those for its element type. */
  lemma SseProvidersOnTop(acc: set<string>, ix: Index, v: string, sseElementType: Option<string>)
    requires Parse(v).Some? && Matches(ServerSentEvents, Parse(v).value)
    requires Inferred(ix, Parse(v).value, sseElementType).Ok?
    ensures ForMediaTypes(acc, ix, [v], sseElementType)
         == Proceed(acc + Possible(ix, Parse(v).value) + Inferred(ix, Parse(v).value, sseElementType).value)
  {
    SseIsNotWildcard(Parse(v).value);
    SingleMediaType(acc, ix, v, sseElementType);
  }

  // ---------------------------------------------------------------------
  // Precedence for one method and one direction.

  /** A method annotation decides alone: the class annotation and both defaults are irrelevant. */
  lemma MethodAnnotationWins(
    acc: set<string>, ix: Index, value: Option<seq<string>>, class1: Annotation, class2: Annotation,
    includeDefaults1: bool, includeDefaults2: bool, jsonDefault1: bool, jsonDefault2: bool, sseElementType: Option<string>)
    ensures ForAnnotation(acc, ix, Present(value), class1, includeDefaults1, jsonDefault1, sseElementType)
         == ForAnnotation(acc, ix, Present(value), class2, includeDefaults2, jsonDefault2, sseElementType)
  {
  }

  /** A method annotation without a value stands for the wildcard type: the answer is `true` at once. */
  lemma MethodAnnotationWithoutValue(
    acc: set<string>, ix: Index, classAnnotation: Annotation, includeDefaults: bool, jsonDefault: bool,
    sseElementType: Option<string>)
    ensures ForAnnotation(acc, ix, Present(None), classAnnotation, includeDefaults, jsonDefault, sseElementType)
         == UseBuiltin(acc)
  {
  }

  /** Without a method annotation, a class annotation's values act as if declared on the method,
      whatever the defaults. */
  lemma ClassAnnotationNext(
    acc: set<string>, ix: Index, values: seq<string>, methodClass: Annotation,
    includeDefaults1: bool, includeDefaults2: bool, jsonDefault1: bool, jsonDefault2: bool, sseElementType: Option<string>)
    ensures ForAnnotation(acc, ix, Absent, Present(Some(values)), includeDefaults1, jsonDefault1, sseElementType)
         == ForAnnotation(acc, ix, Present(Some(values)), methodClass, includeDefaults2, jsonDefault2, sseElementType)
  {
  }

  /** Unlike a method annotation, a class annotation without a value contributes nothing and the
      answer is `false`. */
  lemma ClassAnnotationWithoutValue(
    acc: set<string>, ix: Index, includeDefaults: bool, jsonDefault: bool, sseElementType: Option<string>)
    ensures ForAnnotation(acc, ix, Absent, Present(None), includeDefaults, jsonDefault, sseElementType) == Proceed(acc)
  {
  }

  /** `application/json` is neither the wildcard type nor an SSE type: it adds exactly its own
      candidates. */
  lemma JsonCollected(acc: set<string>, ix: Index, sseElementType: Option<string>)
    ensures ForMediaType(acc, ix, ApplicationJson, sseElementType) == Proceed(acc + Possible(ix, ApplicationJson))
  {
    WildcardTypeExactly(ApplicationJson);
    MatchesServerSentEvents(ApplicationJson);
    LowerOfLower("application");
  }

  /** With no annotation on the method or its class: nothing and `false` when the verb has no
      default; exactly the `application/json` candidates and `false` under the JSON default;
      otherwise `true`. */
  lemma Defaults(acc: set<string>, ix: Index, includeDefaults: bool, jsonDefault: bool, sseElementType: Option<string>)
    ensures !includeDefaults ==>
      ForAnnotation(acc, ix, Absent, Absent, includeDefaults, jsonDefault, sseElementType) == Proceed(acc)
    ensures includeDefaults && jsonDefault ==>
      ForAnnotation(acc, ix, Absent, Absent, includeDefaults, jsonDefault, sseElementType)
        == Proceed(acc + Possible(ix, ApplicationJson))
    ensures includeDefaults && !jsonDefault ==>
      ForAnnotation(acc, ix, Absent, Absent, includeDefaults, jsonDefault, sseElementType) == UseBuiltin(acc)
  {
    JsonCollected(acc, ix, sseElementType);
  }

  // ---------------------------------------------------------------------
  // Direction handling for one annotated method.

  /** A REST-client method is a resource method with readers and writers swapped. */
  lemma RestClientSwapsDirection(
    acc: set<string>, readers: Index, writers: Index, resolvers: Index,
    e: Endpoint, d: ProviderDiscoverer, jsonDefault: bool)
    ensures ForEndpoint(acc, readers, writers, resolvers, e, d, true, jsonDefault)
         == ForEndpoint(acc, writers, readers, resolvers, e, d, false, jsonDefault)
  {
  }

  /** A resource method declaring accepted media types on both sides gets the readers for what it
      consumes, the writers for what it produces, and the context resolvers for both. */
  lemma ResourceEndpointCandidates(
    acc: set<string>, readers: Index, writers: Index, resolvers: Index,
    e: Endpoint, d: ProviderDiscoverer, jsonDefault: bool, consumes: seq<string>, produces: seq<string>)
    requires e.methodConsumes == Present(Some(consumes)) && e.methodProduces == Present(Some(produces))
    requires AllAccepted(consumes, e.sseElementType) && AllAccepted(produces, e.sseElementType)
    ensures ForEndpoint(acc, readers, writers, resolvers, e, d, false, jsonDefault)
         == Proceed(acc + Candidates(readers, consumes, e.sseElementType) + Candidates(writers, produces, e.sseElementType)
                        + Candidates(resolvers, consumes, e.sseElementType) + Candidates(resolvers, produces, e.sseElementType))
  {
    var s := e.sseElementType;
    var r1 := acc + Candidates(readers, consumes, s);
    var r2 := r1 + Candidates(writers, produces, s);
    var r3 := r2 + Candidates(resolvers, consumes, s);
    ForMediaTypesAccepted(acc, readers, consumes, s);
    ForMediaTypesAccepted(r1, writers, produces, s);
    ForMediaTypesAccepted(r2, resolvers, consumes, s);
    ForMediaTypesAccepted(r3, resolvers, produces, s);
  }

  /** A GET resource method with no media-type annotation anywhere: under the JSON default it
      needs the JSON writers and context resolvers, otherwise every built-in provider. */
  lemma UnannotatedGet(acc: set<string>, readers: Index, writers: Index, resolvers: Index, e: Endpoint, jsonDefault: bool)
    requires e.verb == Get
    requires e.methodConsumes == Absent && e.methodProduces == Absent
    requires e.classConsumes == Absent && e.classProduces == Absent
    ensures ForEndpoint(acc, readers, writers, resolvers, e, DiscovererFor(Get), false, jsonDefault)
         == if jsonDefault then Proceed(acc + Possible(writers, ApplicationJson) + Possible(resolvers, ApplicationJson))
            else UseBuiltin(acc)
  {
    var d := DiscovererFor(Get);
    var s := e.sseElementType;
    Defaults(acc, readers, d.noConsumesDefaultsToAll, jsonDefault, s);
    Defaults(acc, writers, d.noProducesDefaultsToAll, jsonDefault, s);
    Defaults(acc + Possible(writers, ApplicationJson), resolvers, d.noConsumesDefaultsToAll, jsonDefault, s);
    Defaults(acc + Possible(writers, ApplicationJson), resolvers, d.noProducesDefaultsToAll, jsonDefault, s);
  }

  /** A POST resource method consuming `application/json` and declaring no `@Produces`: the JSON
      readers are added first, and without the JSON default the answer is `true` with them kept. */
  lemma JsonPost(acc: set<string>, readers: Index, writers: Index, resolvers: Index, e: Endpoint, jsonDefault: bool)
    requires e.verb == Post
    requires e.methodConsumes == Present(Some([ApplicationJsonText]))
    requires e.methodProduces == Absent && e.classProduces == Absent
    ensures ForEndpoint(acc, readers, writers, resolvers, e, DiscovererFor(Post), false, jsonDefault)
         == if jsonDefault then
              Proceed(acc + Possible(readers, ApplicationJson) + Possible(writers, ApplicationJson)
                          + Possible(resolvers, ApplicationJson))
            else UseBuiltin(acc + Possible(readers, ApplicationJson))
  {
    var d := DiscovererFor(Post);
    var s := e.sseElementType;
    var r1 := acc + Possible(readers, ApplicationJson);
    var r2 := r1 + Possible(writers, ApplicationJson);
    ParseApplicationJson();
    SingleMediaType(acc, readers, ApplicationJsonText, s);
    JsonCollected(acc, readers, s);
    Defaults(r1, writers, d.noProducesDefaultsToAll, jsonDefault, s);
    SingleMediaType(r2, resolvers, ApplicationJsonText, s);
    JsonCollected(r2, resolvers, s);
    Defaults(r2 + Possible(resolvers, ApplicationJson), resolvers, d.noProducesDefaultsToAll, jsonDefault, s);
  }

  // ---------------------------------------------------------------------
  // `@PartType`, and the loops over methods and indexes.

  /** Readers and writers for every `@PartType` value that parses. */
  ghost function PartCandidates(readers: Index, writers: Index, partTypes: seq<string>): set<string> {
    set v, p | v in partTypes && Parse(v).Some?
                 && p in Possible(readers, Parse(v).value) + Possible(writers, Parse(v).value) :: p
  }

  /** What one `@PartType` value adds. */
  function PartContribution(readers: Index, writers: Index, v: string): set<string> {
    match Parse(v)
    case None => {}
    case Some(m) => Possible(readers, m) + Possible(writers, m)
  }

  lemma {:induction false} PartCandidatesCons(readers: Index, writers: Index, partTypes: seq<string>)
    requires partTypes != []
    ensures PartCandidates(readers, writers, partTypes)
         == PartContribution(readers, writers, partTypes[0]) + PartCandidates(readers, writers, partTypes[1..])
  {
    assert forall w :: w in partTypes <==> w == partTypes[0] || w in partTypes[1..] by {
      assert partTypes == [partTypes[0]] + partTypes[1..];
    }
  }

  /** The `@PartType` loop adds exactly the reader and writer candidates of the values that parse. */
  lemma {:induction false} PartTypesCandidates(acc: set<string>, readers: Index, writers: Index, partTypes: seq<string>)
    ensures ForPartTypes(acc, readers, writers, partTypes) == acc + PartCandidates(readers, writers, partTypes)
    decreases |partTypes|
  {
    if partTypes == [] {
      assert PartCandidates(readers, writers, partTypes) == {};
    } else {
      var contribution := PartContribution(readers, writers, partTypes[0]);
      match Parse(partTypes[0]) {
        case None =>
          assert acc + contribution == acc;
        case Some(m) =>
          assert acc + Possible(readers, m) + Possible(writers, m) == acc + contribution;
      }
      assert ForPartTypes(acc, readers, writers, partTypes)
          == ForPartTypes(acc + contribution, readers, writers, partTypes[1..]);
      PartTypesCandidates(acc + contribution, readers, writers, partTypes[1..]);
      PartCandidatesCons(readers, writers, partTypes);
    }
  }

  /** A malformed `@PartType` value is skipped without effect. */
  lemma MalformedPartTypeIgnored(acc: set<string>, readers: Index, writers: Index, partTypes: seq<string>, bad: string)
    requires Parse(bad).None?
    ensures ForPartTypes(acc, readers, writers, partTypes + [bad]) == ForPartTypes(acc, readers, writers, partTypes)
  {
    PartTypesCandidates(acc, readers, writers, partTypes + [bad]);
    PartTypesCandidates(acc, readers, writers, partTypes);
    assert forall w :: w in partTypes + [bad] <==> w in partTypes || w == bad;
    assert PartCandidates(readers, writers, partTypes + [bad]) == PartCandidates(readers, writers, partTypes);
  }

  /** Over the annotated methods of a verb: once an earlier method answers `true` (or fails),
      later methods are not visited. */
  lemma {:induction false} ForVerbConcat(
    acc: set<string>, readers: Index, writers: Index, resolvers: Index,
    xs: seq<Endpoint>, ys: seq<Endpoint>, d: ProviderDiscoverer, restClients: set<string>, jsonDefault: bool)
    ensures ForVerb(acc, readers, writers, resolvers, xs + ys, d, restClients, jsonDefault)
         == (var f := ForVerb(acc, readers, writers, resolvers, xs, d, restClients, jsonDefault);
             if f.Proceed? then ForVerb(f.registered, readers, writers, resolvers, ys, d, restClients, jsonDefault) else f)
    decreases |xs|
  {
    if xs == [] {
      assert xs + ys == ys;
    } else {
      assert (xs + ys)[0] == xs[0] && (xs + ys)[1..] == xs[1..] + ys;
      if xs[0].verb != d.methodAnnotation {
        ForVerbConcat(acc, readers, writers, resolvers, xs[1..], ys, d, restClients, jsonDefault);
      } else {
        var f := ForEndpoint(acc, readers, writers, resolvers, xs[0], d, xs[0].declaringClass in restClients, jsonDefault);
        if f.Proceed? {
          ForVerbConcat(f.registered, readers, writers, resolvers, xs[1..], ys, d, restClients, jsonDefault);
        }
      }
    }
  }

  /** Over the discoverer table: once a verb answers `true` (or fails), later verbs are not visited. */
  lemma {:induction false} ForDiscoverersConcat(
    acc: set<string>, readers: Index, writers: Index, resolvers: Index, endpoints: seq<Endpoint>,
    xs: seq<ProviderDiscoverer>, ys: seq<ProviderDiscoverer>, restClients: set<string>, jsonDefault: bool)
    ensures ForDiscoverers(acc, readers, writers, resolvers, endpoints, xs + ys, restClients, jsonDefault)
         == (var f := ForDiscoverers(acc, readers, writers, resolvers, endpoints, xs, restClients, jsonDefault);
             if f.Proceed? then ForDiscoverers(f.registered, readers, writers, resolvers, endpoints, ys, restClients, jsonDefault) else f)
    decreases |xs|
  {
    if xs == [] {
      assert xs + ys == ys;
    } else {
      assert (xs + ys)[0] == xs[0] && (xs + ys)[1..] == xs[1..] + ys;
      var f := ForVerb(acc, readers, writers, resolvers, endpoints, xs[0], restClients, jsonDefault);
      if f.Proceed? {
        ForDiscoverersConcat(f.registered, readers, writers, resolvers, endpoints, xs[1..], ys, restClients, jsonDefault);
      }
    }
  }

  /** Over the indexes: once an index answers `true` (or fails), later indexes are not visited. */
  lemma {:induction false} ForIndexesConcat(
    acc: set<string>, readers: Index, writers: Index, resolvers: Index,
    xs: seq<ApiIndex>, ys: seq<ApiIndex>, restClients: set<string>, jsonDefault: bool)
    ensures ForIndexes(acc, readers, writers, resolvers, xs + ys, restClients, jsonDefault)
         == (var f := ForIndexes(acc, readers, writers, resolvers, xs, restClients, jsonDefault);
             if f.Proceed? then ForIndexes(f.registered, readers, writers, resolvers, ys, restClients, jsonDefault) else f)
    decreases |xs|
  {
    if xs == [] {
      assert xs + ys == ys;
    } else {
      assert (xs + ys)[0] == xs[0] && (xs + ys)[1..] == xs[1..] + ys;
      var f := ForIndex(acc, readers, writers, resolvers, xs[0], restClients, jsonDefault);
      if f.Proceed? {
        ForIndexesConcat(f.registered, readers, writers, resolvers, xs[1..], ys, restClients, jsonDefault);
      }
    }
  }
}
