/** The `setupProviders` build step: categorise the catalogue of built-in providers,
    start the registration set, let the declared endpoints extend it and decide the
    built-in fallback, then add the contributed and `@Provider`-annotated classes. */
module ProviderSetup {
  import opened Outcomes
  import opened Text
  import opened MediaTypes
  import opened MediaTypeMaps
  import opened Categorization
  import opened DeclaredProviders

  /** The plain-text provider that is registered unconditionally. */
  const StringTextStar := "org.jboss.resteasy.plugins.providers.StringTextStar"

  /** Capability prefixes of the RESTEasy JSON bindings (server or client). */
  const JacksonCapability := "io.quarkus.resteasy.json.jackson"
  const JsonbCapability := "io.quarkus.resteasy.json.jsonb"

  /** Some capability carries the given prefix. */
  predicate CapabilityWithPrefix(capabilities: set<string>, prefix: string) {
    exists c | c in capabilities :: StartsWith(c, prefix)
  }

  /** `resteasyConfig`: the configured JSON default, kept only when a JSON binding is present. */
  function EffectiveJsonDefault(jsonDefault: bool, capabilities: set<string>): bool {
    jsonDefault
    && (CapabilityWithPrefix(capabilities, JacksonCapability) || CapabilityWithPrefix(capabilities, JsonbCapability))
  }

  /** The JSON default is never switched on by capabilities alone, is off without a JSON
      binding, and with a Jackson or JSON-B capability present follows the configuration. */
  lemma JsonDefaultRequiresBinding(jsonDefault: bool, capabilities: set<string>, c: string)
    ensures EffectiveJsonDefault(jsonDefault, capabilities) ==> jsonDefault
    ensures (forall d | d in capabilities :: !StartsWith(d, JacksonCapability) && !StartsWith(d, JsonbCapability))
            ==> !EffectiveJsonDefault(jsonDefault, capabilities)
    ensures c in capabilities && (StartsWith(c, JacksonCapability) || StartsWith(c, JsonbCapability))
            ==> EffectiveJsonDefault(jsonDefault, capabilities) == jsonDefault
  {
  }

  /** Example: the prefix match covers the client flavour of the Jackson binding as well. */
  lemma JacksonClientCountsAsBinding(capabilities: set<string>)
    requires "io.quarkus.resteasy.json.jackson.client" in capabilities
    ensures EffectiveJsonDefault(true, capabilities)
  {
    assert StartsWith("io.quarkus.resteasy.json.jackson.client", JacksonCapability);
  }

  /** A `@Provider` annotation instance: its target's kind and name. */
  datatype ProviderMark = ProviderMark(onClass: bool, target: string)

  /** `JaxrsProvidersToRegisterBuildItem`. */
  datatype ProvidersToRegister = ProvidersToRegister(
    providers: set<string>,
    contributed: set<string>,
    annotated: set<string>,
    useBuiltin: bool)

  /** The duplicate rule: with the built-in fallback on, a catalogue provider needs no entry. */
  predicate Kept(useBuiltin: bool, available: set<string>, name: string) {
    !useBuiltin || name !in available
  }

  /** The contributed names that survive the duplicate rule. */
  function KeptNames(useBuiltin: bool, available: set<string>, names: seq<string>): set<string>
    decreases |names|
  {
    if names == [] then {}
    else
      var last := names[|names| - 1];
      KeptNames(useBuiltin, available, names[..|names| - 1])
        + (if Kept(useBuiltin, available, last) then {last} else {})
  }

  /** The class targets of `@Provider` that survive the duplicate rule. */
  function KeptTargets(useBuiltin: bool, available: set<string>, marks: seq<ProviderMark>): set<string>
    decreases |marks|
  {
    if marks == [] then {}
    else
      var last := marks[|marks| - 1];
      KeptTargets(useBuiltin, available, marks[..|marks| - 1])
        + (if last.onClass && Kept(useBuiltin, available, last.target) then {last.target} else {})
  }

  /** Exactly the contributed names the duplicate rule keeps. */
  lemma {:induction false} KeptNamesContents(useBuiltin: bool, available: set<string>, names: seq<string>, n: string)
    ensures n in KeptNames(useBuiltin, available, names) <==> n in names && Kept(useBuiltin, available, n)
    decreases |names|
  {
    if names != [] {
      var init := names[..|names| - 1];
      KeptNamesContents(useBuiltin, available, init, n);
      assert names == init + [names[|names| - 1]];
      assert n in names <==> n in init || n == names[|names| - 1];
    }
  }

  /** Exactly the annotated class names the duplicate rule keeps. */
  lemma {:induction false} KeptTargetsContents(useBuiltin: bool, available: set<string>, marks: seq<ProviderMark>, n: string)
    ensures n in KeptTargets(useBuiltin, available, marks)
        <==> (exists i | 0 <= i < |marks| :: marks[i].onClass && marks[i].target == n) && Kept(useBuiltin, available, n)
    decreases |marks|
  {
    if marks != [] {
      var init := marks[..|marks| - 1];
      var last := marks[|marks| - 1];
      KeptTargetsContents(useBuiltin, available, init, n);
      if exists i | 0 <= i < |init| :: init[i].onClass && init[i].target == n {
        var i :| 0 <= i < |init| && init[i].onClass && init[i].target == n;
        assert marks[i] == init[i];
      }
      if exists i | 0 <= i < |marks| :: marks[i].onClass && marks[i].target == n {
        var i :| 0 <= i < |marks| && marks[i].onClass && marks[i].target == n;
        if i < |init| {
          assert init[i] == marks[i];
        }
      }
    }
  }

  /** The registration set before the declared endpoints are scanned. */
  function InitialProviders(c: Categories): set<string> {
    c.others + {StringTextStar} + Possible(c.writers, ApplicationJson)
  }

  /** The whole step. A catalogue class with a malformed media type, or a malformed value on
      an endpoint, aborts it. */
  function Setup(
    cp: ClassPath, available: seq<string>, contributed: seq<string>, marks: seq<ProviderMark>,
    restClients: set<string>, jsonDefault: bool, indexes: seq<ApiIndex>): Result<ProvidersToRegister, string>
  {
    var c :- Categorize(cp, available);
    var flow := ForIndexes(InitialProviders(c), c.readers, c.writers, c.resolvers, indexes, restClients, jsonDefault);
    if flow.Malformed? then Err(flow.text)
    else
      var catalogue := set n | n in available;
      var annotated := KeptTargets(flow.UseBuiltin?, catalogue, marks);
      var all := KeptNames(flow.UseBuiltin?, catalogue, contributed) + annotated;
      Ok(ProvidersToRegister(flow.registered + all, all, annotated, flow.UseBuiltin?))
  }

  /** The step aborts exactly when categorisation or the endpoint scan meets a malformed
      media type; otherwise the fallback flag is the scan's verdict. */
  lemma SetupOutcome(
    cp: ClassPath, available: seq<string>, contributed: seq<string>, marks: seq<ProviderMark>,
    restClients: set<string>, jsonDefault: bool, indexes: seq<ApiIndex>)
    ensures var r := Setup(cp, available, contributed, marks, restClients, jsonDefault, indexes);
      var c := Categorize(cp, available);
      && (c.Err? ==> r == Err(c.error))
      && (c.Ok? ==>
        var flow := ForIndexes(InitialProviders(c.value), c.value.readers, c.value.writers, c.value.resolvers,
                               indexes, restClients, jsonDefault);
        && (r.Err? <==> flow.Malformed?)
        && (r.Ok? ==> r.value.useBuiltin == flow.UseBuiltin?))
    ensures !AllCategorizable(cp, available)
            ==> Setup(cp, available, contributed, marks, restClients, jsonDefault, indexes).Err?
  {
    CategorizeContents(cp, available, WildcardKey, "");
  }

  /** What is always registered: the catalogue's plain providers, `StringTextStar`, every
      writer able to write `application/json`, and every contributed or annotated name kept. */
  lemma AlwaysRegistered(
    cp: ClassPath, available: seq<string>, contributed: seq<string>, marks: seq<ProviderMark>,
    restClients: set<string>, jsonDefault: bool, indexes: seq<ApiIndex>)
    requires Categorize(cp, available).Ok?
    requires Setup(cp, available, contributed, marks, restClients, jsonDefault, indexes).Ok?
    ensures var c := Categorize(cp, available).value;
      var r := Setup(cp, available, contributed, marks, restClients, jsonDefault, indexes).value;
      && c.others <= r.providers
      && StringTextStar in r.providers
      && Possible(c.writers, ApplicationJson) <= r.providers
      && r.annotated <= r.contributed <= r.providers
  {
  }

  /** The duplicate rule, both ways: a contributed or `@Provider` class name is listed as
      contributed exactly when the fallback is off or the catalogue does not already hold it;
      only class targets count, and the annotated set is the class-target part of it. */
  lemma ContributedExactly(
    cp: ClassPath, available: seq<string>, contributed: seq<string>, marks: seq<ProviderMark>,
    restClients: set<string>, jsonDefault: bool, indexes: seq<ApiIndex>, n: string)
    requires Setup(cp, available, contributed, marks, restClients, jsonDefault, indexes).Ok?
    ensures var r := Setup(cp, available, contributed, marks, restClients, jsonDefault, indexes).value;
      && (n in r.annotated
          <==> (exists i | 0 <= i < |marks| :: marks[i].onClass && marks[i].target == n)
               && (!r.useBuiltin || n !in available))
      && (n in r.contributed
          <==> (n in contributed || exists i | 0 <= i < |marks| :: marks[i].onClass && marks[i].target == n)
               && (!r.useBuiltin || n !in available))
  {
    var r := Setup(cp, available, contributed, marks, restClients, jsonDefault, indexes).value;
    var catalogue := set m | m in available;
    assert n in catalogue <==> n in available;
    KeptNamesContents(r.useBuiltin, catalogue, contributed, n);
    KeptTargetsContents(r.useBuiltin, catalogue, marks, n);
  }

  /** Without the fallback nothing contributed is dropped; with it, no contributed name is a
      catalogue provider. */
  lemma FallbackDeduplicates(
    cp: ClassPath, available: seq<string>, contributed: seq<string>, marks: seq<ProviderMark>,
    restClients: set<string>, jsonDefault: bool, indexes: seq<ApiIndex>)
    requires Setup(cp, available, contributed, marks, restClients, jsonDefault, indexes).Ok?
    ensures var r := Setup(cp, available, contributed, marks, restClients, jsonDefault, indexes).value;
      && (!r.useBuiltin ==> (set n | n in contributed) <= r.contributed)
      && (r.useBuiltin ==> forall n | n in r.contributed :: n !in available)
  {
    var r := Setup(cp, available, contributed, marks, restClients, jsonDefault, indexes).value;
    forall n | n in contributed || n in r.contributed
      ensures !r.useBuiltin && n in contributed ==> n in r.contributed
      ensures r.useBuiltin && n in r.contributed ==> n !in available
    {
      ContributedExactly(cp, available, contributed, marks, restClients, jsonDefault, indexes, n);
    }
  }

  /** Every name the catalogue indexes is a catalogue name. */
  lemma CatalogueOnly(cp: ClassPath, available: seq<string>)
    requires Categorize(cp, available).Ok?
    ensures var c := Categorize(cp, available).value;
      var catalogue := set n | n in available;
      && c.others <= catalogue
      && Values(c.readers) <= catalogue && Values(c.writers) <= catalogue && Values(c.resolvers) <= catalogue
  {
    var c := Categorize(cp, available).value;
    forall p | p in c.others ensures p in available {
      CategorizeContents(cp, available, WildcardKey, p);
    }
    forall p | p in Values(c.readers) ensures p in available {
      var k :| k in c.readers && p in c.readers[k];
      CategorizeContents(cp, available, k, p);
    }
    forall p | p in Values(c.writers) ensures p in available {
      var k :| k in c.writers && p in c.writers[k];
      CategorizeContents(cp, available, k, p);
    }
    forall p | p in Values(c.resolvers) ensures p in available {
      var k :| k in c.resolvers && p in c.resolvers[k];
      CategorizeContents(cp, available, k, p);
    }
  }

  /** Nothing is registered from nowhere: every provider is a catalogue provider,
      `StringTextStar`, or a contributed or annotated name. In particular the fallback does
      not add the whole catalogue to the registration set. */
  lemma RegisteredSound(
    cp: ClassPath, available: seq<string>, contributed: seq<string>, marks: seq<ProviderMark>,
    restClients: set<string>, jsonDefault: bool, indexes: seq<ApiIndex>)
    requires Setup(cp, available, contributed, marks, restClients, jsonDefault, indexes).Ok?
    ensures var r := Setup(cp, available, contributed, marks, restClients, jsonDefault, indexes).value;
      r.providers <= (set n | n in available) + {StringTextStar} + r.contributed
  {
    var c := Categorize(cp, available).value;
    CatalogueOnly(cp, available);
    PossibleWithinValues(c.writers, ApplicationJson);
  }

  /** A contributed name that is not a catalogue provider is always registered. */
  lemma ForeignContributionRegistered(
    cp: ClassPath, available: seq<string>, contributed: seq<string>, marks: seq<ProviderMark>,
    restClients: set<string>, jsonDefault: bool, indexes: seq<ApiIndex>, n: string)
    requires Setup(cp, available, contributed, marks, restClients, jsonDefault, indexes).Ok?
    requires n in contributed && n !in available
    ensures n in Setup(cp, available, contributed, marks, restClients, jsonDefault, indexes).value.providers
  {
    ContributedExactly(cp, available, contributed, marks, restClients, jsonDefault, indexes, n);
  }

  /** `setupProviders`, from the catalogue's class path entries to the build item. */
  method SetupProviders(
    cp: ClassPath, available: seq<string>, contributed: seq<string>, marks: seq<ProviderMark>,
    restClients: seq<string>, jsonDefault: bool, indexes: seq<ApiIndex>)
    returns (result: Result<ProvidersToRegister, string>)
    ensures result == Setup(cp, available, contributed, marks, (set n | n in restClients), jsonDefault, indexes)
  {
    var readers := new MediaTypeMap();
    var writers := new MediaTypeMap();
    var resolvers := new MediaTypeMap();
    var categorized := CategorizeProviders(cp, available, readers, writers, resolvers, {});
    if categorized.Err? {
      return Err(categorized.error);
    }
    ghost var c := Categorize(cp, available).value;
    assert readers.entries == c.readers && writers.entries == c.writers && resolvers.entries == c.resolvers;
    var providers := categorized.value + {StringTextStar} + Possible(writers.entries, ApplicationJson);
    var flow := CollectDeclaredProviders(restClients, jsonDefault, providers, readers, writers, resolvers, indexes);
    if flow.Malformed? {
      return Err(flow.text);
    }
    var useBuiltin := flow.UseBuiltin?;
    var catalogue := set n | n in available;

    var contributedProviders := {};
    for i := 0 to |contributed|
      invariant contributedProviders == KeptNames(useBuiltin, catalogue, contributed[..i])
    {
      assert contributed[..i + 1][..i] == contributed[..i];
      if !useBuiltin || contributed[i] !in catalogue {
        contributedProviders := contributedProviders + {contributed[i]};
      }
    }
    assert contributed[..|contributed|] == contributed;

    var annotatedProviders := {};
    for i := 0 to |marks|
      invariant annotatedProviders == KeptTargets(useBuiltin, catalogue, marks[..i])
    {
      assert marks[..i + 1][..i] == marks[..i];
      if marks[i].onClass && (!useBuiltin || marks[i].target !in catalogue) {
        annotatedProviders := annotatedProviders + {marks[i].target};
      }
    }
    assert marks[..|marks|] == marks;

    contributedProviders := contributedProviders + annotatedProviders;
    result := Ok(ProvidersToRegister(flow.registered + contributedProviders, contributedProviders, annotatedProviders, useBuiltin));
  }
}
