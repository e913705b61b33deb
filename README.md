# Build-time JAX-RS provider selection, and OpenShift configuration rules

This project models two parts of Quarkus's build-time configuration and proves properties about them.

**RESTEasy Classic provider selection** (`ResteasyCommonProcessor`). At build time Quarkus decides which
JAX-RS providers a native application needs.

- The catalogue of built-in providers is sorted by media type into message-body readers, message-body
  writers and context resolvers. Anything else becomes a plain provider (`categorizeProviders`).
- Every resource method and REST-client method annotated with an HTTP verb is scanned in turn
  (`collectDeclaredProviders`). Its `@Consumes`/`@Produces` values, or the class's, or the verb's default,
  are resolved against those indexes. `text/event-stream` also needs the providers of its element type
  (`collectInferredProviders`). Every `@PartType` value needs both readers and writers.
- A declared `*/*`, or a direction the verb uses (a request body or a response) left unannotated when
  the JSON default is off, ends the scan with "use every built-in provider".
- `setupProviders` assembles the final registration set. It always holds the plain providers,
  `StringTextStar`, the JSON writers, the contributed providers and the `@Provider` classes. Contributed
  and `@Provider` names already in the catalogue are dropped when the built-in fallback is on.

**OpenShift configuration** (`OpenShiftConfig`) has three decision rules:

- whether the S2I image build is enabled;
- which deployment resource kind is generated;
- which sidecar map is used, when the deprecated `containers` setting and the newer `sidecars` setting
  might both be present.

Modules, in dependency order:

- `Outcomes`: the `Option` and `Result` wrappers.
- `Text`: ASCII case folding, splitting, trimming and substring tests.
- `MediaTypes`: the media-type record, the processor's `matches`, `equals`, and the parser that stands in
  for `MediaType.valueOf`, with its round trip.
- `MediaTypeMaps`: the `MediaTypeMap` index, as a value and as a mutable class.
- `Categorization`: `categorizeProviders`.
- `ProviderDiscoverers`: the `PROVIDER_DISCOVERERS` table.
- `DeclaredProviders`: the collection, as specification functions and as the looping methods proved
  equal to them.
- `DeclaredProperties`: what the collection promises, stated against independent reference definitions.
- `ProviderSetup`: `resteasyConfig` and `setupProviders`.
- `OpenShift`: the three configuration rules.

## Model

| member | source | states |
|---|---|---|
| ProviderDiscoverers.DiscovererFor | extensions/resteasy-classic/resteasy-common/deployment/src/main/java/io/quarkus/resteasy/common/deployment/ResteasyCommonProcessor.java:74-82 | each verb's table entry. A body is assumed for DELETE, PATCH, POST and PUT; a response for GET, OPTIONS and POST |
| ProviderDiscoverers.EachVerbOnce | extensions/resteasy-classic/resteasy-common/deployment/src/main/java/io/quarkus/resteasy/common/deployment/ResteasyCommonProcessor.java:74-82 | no verb appears twice in the table |
| ProviderDiscoverers.DiscoverersPolicy | extensions/resteasy-classic/resteasy-common/deployment/src/main/java/io/quarkus/resteasy/common/deployment/ResteasyCommonProcessor.java:74-82 | every entry's two flags are its verb's policy |
| MediaTypes.WildcardTypeExactly | extensions/resteasy-classic/resteasy-common/deployment/src/main/java/io/quarkus/resteasy/common/deployment/ResteasyCommonProcessor.java:578 | `WILDCARD_TYPE.equals` holds only for the bare wildcard, with no parameters |
| MediaTypes.MatchesIgnoresParameters | extensions/resteasy-classic/resteasy-common/deployment/src/main/java/io/quarkus/resteasy/common/deployment/ResteasyCommonProcessor.java:643-651 | `matches` does not depend on either side's parameters |
| MediaTypes.MatchesIsEquivalence | extensions/resteasy-classic/resteasy-common/deployment/src/main/java/io/quarkus/resteasy/common/deployment/ResteasyCommonProcessor.java:643-651 | `matches` is reflexive, symmetric and transitive, and `equals` implies it |
| MediaTypes.MatchesServerSentEvents | extensions/resteasy-classic/resteasy-common/deployment/src/main/java/io/quarkus/resteasy/common/deployment/ResteasyCommonProcessor.java:609 | a type is SSE exactly when its lower-cased type and subtype are `text/event-stream` |
| MediaTypes.Parse | extensions/resteasy-classic/resteasy-common/deployment/src/main/java/io/quarkus/resteasy/common/deployment/ResteasyCommonProcessor.java:577 | a parsed media type has a non-empty type and subtype |
| MediaTypes.ParseFormat | extensions/resteasy-classic/resteasy-common/deployment/src/main/java/io/quarkus/resteasy/common/deployment/ResteasyCommonProcessor.java:577 | round trip: parsing a well-formed written type gives back its type, subtype and parameters |
| MediaTypes.ParseKeepsQuotes | extensions/resteasy-classic/resteasy-common/deployment/src/main/java/io/quarkus/resteasy/common/deployment/ResteasyCommonProcessor.java:577 | a quoted parameter value is read back exactly as written, quotes included |
| MediaTypes.ParseWildcard | extensions/resteasy-classic/resteasy-common/deployment/src/main/java/io/quarkus/resteasy/common/deployment/ResteasyCommonProcessor.java:98 | the literal wildcard constant parses to the wildcard type |
| MediaTypes.ParseApplicationJson | extensions/resteasy-classic/resteasy-common/deployment/src/main/java/io/quarkus/resteasy/common/deployment/ResteasyCommonProcessor.java:553-554 | the literal `application/json` parses to that type |
| MediaTypeMaps.Insert | extensions/resteasy-classic/resteasy-common/deployment/src/main/java/io/quarkus/resteasy/common/deployment/ResteasyCommonProcessor.java:425 | `add` gives the provider to exactly the media type's key and no other |
| MediaTypeMaps.RegisteredAfterInsert | extensions/resteasy-classic/resteasy-common/deployment/src/main/java/io/quarkus/resteasy/common/deployment/ResteasyCommonProcessor.java:425 | exactly what `add` changes under any one key |
| MediaTypeMaps.WildcardTypeKey | extensions/resteasy-classic/resteasy-common/deployment/src/main/java/io/quarkus/resteasy/common/deployment/ResteasyCommonProcessor.java:428 | the wildcard type is stored under the wildcard key |
| MediaTypeMaps.PossibleRespectsMatches | extensions/resteasy-classic/resteasy-common/deployment/src/main/java/io/quarkus/resteasy/common/deployment/ResteasyCommonProcessor.java:643-651 | types related by `matches` share a key and so have the same candidates |
| MediaTypeMaps.InsertedIsPossible | extensions/resteasy-classic/resteasy-common/deployment/src/main/java/io/quarkus/resteasy/common/deployment/ResteasyCommonProcessor.java:582 | a provider added under a type is a candidate for that type |
| MediaTypeMaps.WildcardAlwaysPossible | extensions/resteasy-classic/resteasy-common/deployment/src/main/java/io/quarkus/resteasy/common/deployment/ResteasyCommonProcessor.java:582 | wildcard registrations are candidates for every type |
| MediaTypeMaps.PossibleAfterInsert | extensions/resteasy-classic/resteasy-common/deployment/src/main/java/io/quarkus/resteasy/common/deployment/ResteasyCommonProcessor.java:425 | after one `add`, the exact candidate set of every query type |
| MediaTypeMaps.PossibleWithinValues | extensions/resteasy-classic/resteasy-common/deployment/src/main/java/io/quarkus/resteasy/common/deployment/ResteasyCommonProcessor.java:582 | every candidate is a registered provider |
| MediaTypeMaps.ValuesAfterInsert | extensions/resteasy-classic/resteasy-common/deployment/src/main/java/io/quarkus/resteasy/common/deployment/ResteasyCommonProcessor.java:425 | `add` registers exactly one more name |
| MediaTypeMaps.MediaTypeMap.Add | extensions/resteasy-classic/resteasy-common/deployment/src/main/java/io/quarkus/resteasy/common/deployment/ResteasyCommonProcessor.java:425 | the in-place `add` leaves the map's entries equal to `Insert` of the old entries |
| Categorization.WithAll | extensions/resteasy-classic/resteasy-common/deployment/src/main/java/io/quarkus/resteasy/common/deployment/ResteasyCommonProcessor.java:424-426 | the loop over annotation values fails exactly when some value does not parse, and reports such a value |
| Categorization.WithAllContents | extensions/resteasy-classic/resteasy-common/deployment/src/main/java/io/quarkus/resteasy/common/deployment/ResteasyCommonProcessor.java:424-426 | exactly the keys of the parsed values gain the provider |
| Categorization.WithDeclaredContents | extensions/resteasy-classic/resteasy-common/deployment/src/main/java/io/quarkus/resteasy/common/deployment/ResteasyCommonProcessor.java:422-429 | a missing annotation registers under the wildcard; only a malformed value fails |
| Categorization.CategorizeOneContents | extensions/resteasy-classic/resteasy-common/deployment/src/main/java/io/quarkus/resteasy/common/deployment/ResteasyCommonProcessor.java:416-455 | one class goes to readers, writers, or both; to resolvers only if it is neither; otherwise to the plain set. A class that does not load changes nothing |
| Categorization.CategorizeAllContents | extensions/resteasy-classic/resteasy-common/deployment/src/main/java/io/quarkus/resteasy/common/deployment/ResteasyCommonProcessor.java:415-457 | the loop fails exactly on a loadable class with a malformed annotation; otherwise each bucket's exact contents, added to what it held before |
| Categorization.CategorizeContents | extensions/resteasy-classic/resteasy-common/deployment/src/main/java/io/quarkus/resteasy/common/deployment/ResteasyCommonProcessor.java:412-458 | from empty maps, a provider is in a bucket under a key exactly when it is available, loads, has that role and declares that key |
| Categorization.CategorizeOrderIrrelevant | extensions/resteasy-classic/resteasy-common/deployment/src/main/java/io/quarkus/resteasy/common/deployment/ResteasyCommonProcessor.java:415 | any iteration order of the same hash set gives the same buckets and the same success |
| Categorization.AddDeclared | extensions/resteasy-classic/resteasy-common/deployment/src/main/java/io/quarkus/resteasy/common/deployment/ResteasyCommonProcessor.java:422-429 | the in-place loop over one annotation matches its specification, failure included |
| Categorization.CategorizeProviders | extensions/resteasy-classic/resteasy-common/deployment/src/main/java/io/quarkus/resteasy/common/deployment/ResteasyCommonProcessor.java:412-458 | the in-place loop over the catalogue leaves the three maps and the plain set as the specification says, or fails with its error |
| DeclaredProviders.Inferred | extensions/resteasy-classic/resteasy-common/deployment/src/main/java/io/quarkus/resteasy/common/deployment/ResteasyCommonProcessor.java:599-631 | inferred providers are registered ones; the only failure is an element type that does not parse |
| DeclaredProviders.ForMediaType | extensions/resteasy-classic/resteasy-common/deployment/src/main/java/io/quarkus/resteasy/common/deployment/ResteasyCommonProcessor.java:578-584 | one parsed value adds only registered providers and never removes any |
| DeclaredProviders.ForMediaTypes | extensions/resteasy-classic/resteasy-common/deployment/src/main/java/io/quarkus/resteasy/common/deployment/ResteasyCommonProcessor.java:572-587 | the set only grows, within the index's providers; a failure names a value that does not parse |
| DeclaredProviders.ForAnnotation | extensions/resteasy-classic/resteasy-common/deployment/src/main/java/io/quarkus/resteasy/common/deployment/ResteasyCommonProcessor.java:531-570 | one direction of one method adds only providers of that index |
| DeclaredProviders.ForEndpoint | extensions/resteasy-classic/resteasy-common/deployment/src/main/java/io/quarkus/resteasy/common/deployment/ResteasyCommonProcessor.java:474-512 | one method adds only providers of the three indexes |
| DeclaredProviders.ForVerb | extensions/resteasy-classic/resteasy-common/deployment/src/main/java/io/quarkus/resteasy/common/deployment/ResteasyCommonProcessor.java:472-513 | the methods of one verb add only providers of the three indexes |
| DeclaredProviders.ForDiscoverers | extensions/resteasy-classic/resteasy-common/deployment/src/main/java/io/quarkus/resteasy/common/deployment/ResteasyCommonProcessor.java:471-514 | the loop over the table adds only providers of the three indexes |
| DeclaredProviders.ForPartTypes | extensions/resteasy-classic/resteasy-common/deployment/src/main/java/io/quarkus/resteasy/common/deployment/ResteasyCommonProcessor.java:516-526 | `@PartType` adds only reader and writer providers |
| DeclaredProviders.ForIndex | extensions/resteasy-classic/resteasy-common/deployment/src/main/java/io/quarkus/resteasy/common/deployment/ResteasyCommonProcessor.java:471-526 | one index adds only providers of the three indexes |
| DeclaredProviders.ForIndexes | extensions/resteasy-classic/resteasy-common/deployment/src/main/java/io/quarkus/resteasy/common/deployment/ResteasyCommonProcessor.java:460-529 | the whole collection only grows the set, within the three indexes' providers |
| DeclaredProviders.SingleMediaType | extensions/resteasy-classic/resteasy-common/deployment/src/main/java/io/quarkus/resteasy/common/deployment/ResteasyCommonProcessor.java:553-565 | a one-element array behaves as its parsed value |
| DeclaredProviders.CollectForMediaTypes | extensions/resteasy-classic/resteasy-common/deployment/src/main/java/io/quarkus/resteasy/common/deployment/ResteasyCommonProcessor.java:572-587 | the loop, with its early return, computes `ForMediaTypes` |
| DeclaredProviders.CollectForMethodAndAnnotation | extensions/resteasy-classic/resteasy-common/deployment/src/main/java/io/quarkus/resteasy/common/deployment/ResteasyCommonProcessor.java:531-570 | computes `ForAnnotation`, including the literal JSON and wildcard arrays |
| DeclaredProviders.CollectForVerb | extensions/resteasy-classic/resteasy-common/deployment/src/main/java/io/quarkus/resteasy/common/deployment/ResteasyCommonProcessor.java:472-513 | the loop over one verb's methods, with four early returns, computes `ForVerb` |
| DeclaredProviders.CollectForDiscoverers | extensions/resteasy-classic/resteasy-common/deployment/src/main/java/io/quarkus/resteasy/common/deployment/ResteasyCommonProcessor.java:471-514 | the loop over the table computes `ForDiscoverers` |
| DeclaredProviders.CollectForPartTypes | extensions/resteasy-classic/resteasy-common/deployment/src/main/java/io/quarkus/resteasy/common/deployment/ResteasyCommonProcessor.java:516-526 | the `@PartType` loop computes `ForPartTypes` |
| DeclaredProviders.CollectFromIndex | extensions/resteasy-classic/resteasy-common/deployment/src/main/java/io/quarkus/resteasy/common/deployment/ResteasyCommonProcessor.java:471-526 | one index computes `ForIndex` |
| DeclaredProviders.CollectDeclaredProviders | extensions/resteasy-classic/resteasy-common/deployment/src/main/java/io/quarkus/resteasy/common/deployment/ResteasyCommonProcessor.java:460-529 | `collectDeclaredProviders` computes `ForIndexes` with the REST-client interface names as a set |
| DeclaredProperties.AcceptedInfers | extensions/resteasy-classic/resteasy-common/deployment/src/main/java/io/quarkus/resteasy/common/deployment/ResteasyCommonProcessor.java:622-623 | inference succeeds whenever the element type parses |
| DeclaredProperties.ForMediaTypesStep | extensions/resteasy-classic/resteasy-common/deployment/src/main/java/io/quarkus/resteasy/common/deployment/ResteasyCommonProcessor.java:582-584 | an accepted value adds exactly its candidates and inferred providers, then the loop goes on |
| DeclaredProperties.ForMediaTypesAccepted | extensions/resteasy-classic/resteasy-common/deployment/src/main/java/io/quarkus/resteasy/common/deployment/ResteasyCommonProcessor.java:576-586 | values that are all accepted add exactly the union of their contributions, and the answer is `false` |
| DeclaredProperties.ForMediaTypesConcat | extensions/resteasy-classic/resteasy-common/deployment/src/main/java/io/quarkus/resteasy/common/deployment/ResteasyCommonProcessor.java:576-586 | the loop over `xs + ys` continues over `ys` only if `xs` answered `false` |
| DeclaredProperties.WildcardStops | extensions/resteasy-classic/resteasy-common/deployment/src/main/java/io/quarkus/resteasy/common/deployment/ResteasyCommonProcessor.java:578-581 | the first wildcard answers `true`, keeps what earlier values added, and looks at nothing after it |
| DeclaredProperties.MalformedStops | extensions/resteasy-classic/resteasy-common/deployment/src/main/java/io/quarkus/resteasy/common/deployment/ResteasyCommonProcessor.java:577 | a malformed value reached first is the exception raised |
| DeclaredProperties.FallbackExactlyOnWildcard | extensions/resteasy-classic/resteasy-common/deployment/src/main/java/io/quarkus/resteasy/common/deployment/ResteasyCommonProcessor.java:576-586 | with well-formed values, the answer is `true` exactly when one parses to the bare wildcard, in both directions |
| DeclaredProperties.NonSseInfersNothing | extensions/resteasy-classic/resteasy-common/deployment/src/main/java/io/quarkus/resteasy/common/deployment/ResteasyCommonProcessor.java:609-630 | a non-SSE type infers the empty set |
| DeclaredProperties.SseAnnotationOverridesParameter | extensions/resteasy-classic/resteasy-common/deployment/src/main/java/io/quarkus/resteasy/common/deployment/ResteasyCommonProcessor.java:612-616 | `@SseElementType` makes the `element-type` parameter irrelevant |
| DeclaredProperties.SseParameterFallback | extensions/resteasy-classic/resteasy-common/deployment/src/main/java/io/quarkus/resteasy/common/deployment/ResteasyCommonProcessor.java:617-621 | without the annotation, the parameter acts as the element type |
| DeclaredProperties.SseTextPlainDefault | extensions/resteasy-classic/resteasy-common/deployment/src/main/java/io/quarkus/resteasy/common/deployment/ResteasyCommonProcessor.java:624-627 | with neither, SSE infers exactly the `text/plain` candidates |
| DeclaredProperties.SseElementTypeCandidates | extensions/resteasy-classic/resteasy-common/deployment/src/main/java/io/quarkus/resteasy/common/deployment/ResteasyCommonProcessor.java:612-623 | an SSE type annotated with `@SseElementType` needs exactly the candidates of that element type; an element type that does not parse raises the parse error |
| DeclaredProperties.SseParameterCandidates | extensions/resteasy-classic/resteasy-common/deployment/src/main/java/io/quarkus/resteasy/common/deployment/ResteasyCommonProcessor.java:617-623 | without the annotation, an SSE type's `element-type` parameter gives exactly the candidates of the parameter's type, or its parse error |
| DeclaredProperties.SseIsNotWildcard | extensions/resteasy-classic/resteasy-common/deployment/src/main/java/io/quarkus/resteasy/common/deployment/ResteasyCommonProcessor.java:578-609 | an SSE type never triggers the wildcard exit |
| DeclaredProperties.SseProvidersOnTop | extensions/resteasy-classic/resteasy-common/deployment/src/main/java/io/quarkus/resteasy/common/deployment/ResteasyCommonProcessor.java:582-584 | an SSE value adds its own candidates plus the element type's |
| DeclaredProperties.MethodAnnotationWins | extensions/resteasy-classic/resteasy-common/deployment/src/main/java/io/quarkus/resteasy/common/deployment/ResteasyCommonProcessor.java:534-569 | a method annotation makes the class annotation and both defaults irrelevant |
| DeclaredProperties.MethodAnnotationWithoutValue | extensions/resteasy-classic/resteasy-common/deployment/src/main/java/io/quarkus/resteasy/common/deployment/ResteasyCommonProcessor.java:560-563 | a method annotation with no value is the wildcard: `true` at once, nothing added |
| DeclaredProperties.ClassAnnotationNext | extensions/resteasy-classic/resteasy-common/deployment/src/main/java/io/quarkus/resteasy/common/deployment/ResteasyCommonProcessor.java:535-545 | without a method annotation, the class's values act as the method's; the defaults are irrelevant |
| DeclaredProperties.ClassAnnotationWithoutValue | extensions/resteasy-classic/resteasy-common/deployment/src/main/java/io/quarkus/resteasy/common/deployment/ResteasyCommonProcessor.java:539-547 | a class annotation with no value adds nothing and answers `false` |
| DeclaredProperties.JsonCollected | extensions/resteasy-classic/resteasy-common/deployment/src/main/java/io/quarkus/resteasy/common/deployment/ResteasyCommonProcessor.java:553-554 | `application/json` adds exactly its own candidates |
| DeclaredProperties.Defaults | extensions/resteasy-classic/resteasy-common/deployment/src/main/java/io/quarkus/resteasy/common/deployment/ResteasyCommonProcessor.java:548-558 | no annotation anywhere gives one of three results: flag off, nothing and `false`; JSON default, exactly the JSON candidates and `false`; otherwise `true` |
| DeclaredProperties.RestClientSwapsDirection | extensions/resteasy-classic/resteasy-common/deployment/src/main/java/io/quarkus/resteasy/common/deployment/ResteasyCommonProcessor.java:477-501 | a REST-client method is a resource method with readers and writers exchanged |
| DeclaredProperties.ResourceEndpointCandidates | extensions/resteasy-classic/resteasy-common/deployment/src/main/java/io/quarkus/resteasy/common/deployment/ResteasyCommonProcessor.java:489-512 | a fully annotated resource method adds exactly readers for its consumes, writers for its produces, and resolvers for both |
| DeclaredProperties.UnannotatedGet | extensions/resteasy-classic/resteasy-common/deployment/src/main/java/io/quarkus/resteasy/common/deployment/ResteasyCommonProcessor.java:548-558 | an unannotated GET adds the JSON writers and resolvers under the JSON default, and otherwise asks for the fallback |
| DeclaredProperties.JsonPost | extensions/resteasy-classic/resteasy-common/deployment/src/main/java/io/quarkus/resteasy/common/deployment/ResteasyCommonProcessor.java:548-558 | a POST consuming JSON with no `@Produces` adds exactly the JSON readers, writers and resolvers, or asks for the fallback |
| DeclaredProperties.PartTypesCandidates | extensions/resteasy-classic/resteasy-common/deployment/src/main/java/io/quarkus/resteasy/common/deployment/ResteasyCommonProcessor.java:516-526 | `@PartType` adds exactly the reader and writer candidates of the values that parse |
| DeclaredProperties.MalformedPartTypeIgnored | extensions/resteasy-classic/resteasy-common/deployment/src/main/java/io/quarkus/resteasy/common/deployment/ResteasyCommonProcessor.java:518-525 | a malformed `@PartType` value has no effect |
| DeclaredProperties.ForVerbConcat | extensions/resteasy-classic/resteasy-common/deployment/src/main/java/io/quarkus/resteasy/common/deployment/ResteasyCommonProcessor.java:473-513 | after a method answers `true` or fails, no later method is visited |
| DeclaredProperties.ForDiscoverersConcat | extensions/resteasy-classic/resteasy-common/deployment/src/main/java/io/quarkus/resteasy/common/deployment/ResteasyCommonProcessor.java:471-514 | after a verb answers `true` or fails, no later entry of the table is visited |
| DeclaredProperties.ForIndexesConcat | extensions/resteasy-classic/resteasy-common/deployment/src/main/java/io/quarkus/resteasy/common/deployment/ResteasyCommonProcessor.java:470-528 | after an index answers `true` or fails, no later index is visited |
| ProviderSetup.JsonDefaultRequiresBinding | extensions/resteasy-classic/resteasy-common/deployment/src/main/java/io/quarkus/resteasy/common/deployment/ResteasyCommonProcessor.java:122-128 | the JSON default is on only if configured; it is off without a Jackson or JSON-B capability and follows the configuration with one |
| ProviderSetup.JacksonClientCountsAsBinding | extensions/resteasy-classic/resteasy-common/deployment/src/main/java/io/quarkus/resteasy/common/deployment/ResteasyCommonProcessor.java:124-127 | example of the prefix test: the capability `io.quarkus.resteasy.json.jackson.client` switches the JSON default on |
| ProviderSetup.KeptNamesContents | extensions/resteasy-classic/resteasy-common/deployment/src/main/java/io/quarkus/resteasy/common/deployment/ResteasyCommonProcessor.java:226-232 | a contributed name is kept exactly when the fallback is off or the catalogue lacks it |
| ProviderSetup.KeptTargetsContents | extensions/resteasy-classic/resteasy-common/deployment/src/main/java/io/quarkus/resteasy/common/deployment/ResteasyCommonProcessor.java:234-243 | only class targets of `@Provider` are kept, under the same rule |
| ProviderSetup.SetupOutcome | extensions/resteasy-classic/resteasy-common/deployment/src/main/java/io/quarkus/resteasy/common/deployment/ResteasyCommonProcessor.java:181-224 | the step fails exactly on a malformed catalogue or endpoint type; otherwise the fallback flag is the scan's answer |
| ProviderSetup.AlwaysRegistered | extensions/resteasy-classic/resteasy-common/deployment/src/main/java/io/quarkus/resteasy/common/deployment/ResteasyCommonProcessor.java:213-246 | plain providers, `StringTextStar`, the JSON writers and everything contributed or annotated are registered |
| ProviderSetup.ContributedExactly | extensions/resteasy-classic/resteasy-common/deployment/src/main/java/io/quarkus/resteasy/common/deployment/ResteasyCommonProcessor.java:226-244 | the exact contents of the contributed and annotated sets, in both directions |
| ProviderSetup.FallbackDeduplicates | extensions/resteasy-classic/resteasy-common/deployment/src/main/java/io/quarkus/resteasy/common/deployment/ResteasyCommonProcessor.java:226-243 | with the fallback off nothing contributed is dropped; with it on no catalogue name is contributed |
| ProviderSetup.CatalogueOnly | extensions/resteasy-classic/resteasy-common/deployment/src/main/java/io/quarkus/resteasy/common/deployment/ResteasyCommonProcessor.java:412-458 | categorisation only indexes catalogue names |
| ProviderSetup.RegisteredSound | extensions/resteasy-classic/resteasy-common/deployment/src/main/java/io/quarkus/resteasy/common/deployment/ResteasyCommonProcessor.java:213-246 | every registered provider is a catalogue name, `StringTextStar`, or contributed |
| ProviderSetup.ForeignContributionRegistered | extensions/resteasy-classic/resteasy-common/deployment/src/main/java/io/quarkus/resteasy/common/deployment/ResteasyCommonProcessor.java:226-246 | a contributed name outside the catalogue is always registered |
| ProviderSetup.SetupProviders | extensions/resteasy-classic/resteasy-common/deployment/src/main/java/io/quarkus/resteasy/common/deployment/ResteasyCommonProcessor.java:165-263 | the step, built from the in-place categorisation, the collection and the two filtering loops, computes `Setup` |
| OpenShift.ExplicitBuilderDecides | extensions/kubernetes/vanilla/deployment/src/main/java/io/quarkus/kubernetes/deployment/OpenShiftConfig.java:136-140 | an explicit builder decides alone: enabled iff it is `openshift` or `s2i` |
| OpenShift.ImplicitBuild | extensions/kubernetes/vanilla/deployment/src/main/java/io/quarkus/kubernetes/deployment/OpenShiftConfig.java:137-139 | with no builder, enabled iff the active capability contains `openshift` or `s2i` |
| OpenShift.OtherBuilderWins | extensions/kubernetes/vanilla/deployment/src/main/java/io/quarkus/kubernetes/deployment/OpenShiftConfig.java:139 | any builder other than `openshift` or `s2i` disables the build, whatever the capability |
| OpenShift.OpenShiftCapabilityEnables | extensions/kubernetes/vanilla/deployment/src/main/java/io/quarkus/kubernetes/deployment/OpenShiftConfig.java:137-138 | example of the implicit rule: the capability `io.quarkus.container.image.openshift` enables the build when no builder is set |
| OpenShift.ExplicitKindWins | extensions/kubernetes/vanilla/deployment/src/main/java/io/quarkus/kubernetes/deployment/OpenShiftConfig.java:143-144 | an explicit kind wins over both defaults; an unsupported one fails rather than falling back |
| OpenShift.DefaultKind | extensions/kubernetes/vanilla/deployment/src/main/java/io/quarkus/kubernetes/deployment/OpenShiftConfig.java:145-148 | with no explicit kind: never fails; `Job` with picocli; otherwise `DeploymentConfig` iff v3 and `Deployment` iff v4 |
| OpenShift.KindProvenance | extensions/kubernetes/vanilla/deployment/src/main/java/io/quarkus/kubernetes/deployment/OpenShiftConfig.java:142-149 | it fails exactly on an unsupported explicit kind; any kind produced was asked for and supported, or is a default |
| OpenShift.GetSidecarsBehaviour | extensions/kubernetes/vanilla/deployment/src/main/java/io/quarkus/kubernetes/deployment/OpenShiftConfig.java:152-162 | as written: fails iff a container name and sidecars are set; a non-empty deprecated map shadows the sidecars |
| OpenShift.GetSidecarsRejectsContainerName | extensions/kubernetes/vanilla/deployment/src/main/java/io/quarkus/kubernetes/deployment/OpenShiftConfig.java:153-157 | a container name with sidecars alone is rejected, though the corrected rule accepts it |
| OpenShift.GetSidecarsDropsSidecars | extensions/kubernetes/vanilla/deployment/src/main/java/io/quarkus/kubernetes/deployment/OpenShiftConfig.java:153-160 | both maps set pass the check, and the sidecars are silently dropped |
| OpenShift.SidecarsIntendedKeepsAll | extensions/kubernetes/vanilla/deployment/src/main/java/io/quarkus/kubernetes/deployment/OpenShiftConfig.java:152-162 | corrected: fails iff both maps are set; otherwise no configured container is lost and nothing is invented |
| OpenShift.SidecarsRulesAgree | extensions/kubernetes/vanilla/deployment/src/main/java/io/quarkus/kubernetes/deployment/OpenShiftConfig.java:152-162 | the two rules agree when no container name is set and at most one map is |
| MediaTypes.Same | extensions/resteasy-classic/resteasy-common/deployment/src/main/java/io/quarkus/resteasy/common/deployment/ResteasyCommonProcessor.java:578 | `MediaType.equals`: type and subtype equal ignoring case, and parameters equal (stated properties in `WildcardTypeExactly` and `MatchesIsEquivalence`) |
| MediaTypes.IsWildcardType | extensions/resteasy-classic/resteasy-common/deployment/src/main/java/io/quarkus/resteasy/common/deployment/ResteasyCommonProcessor.java:578 | the wildcard test `WILDCARD_TYPE.equals(m)` (characterised by `WildcardTypeExactly`) |
| MediaTypes.Matches | extensions/resteasy-classic/resteasy-common/deployment/src/main/java/io/quarkus/resteasy/common/deployment/ResteasyCommonProcessor.java:643-651 | the processor's `matches`: type and subtype equal ignoring case, parameters ignored (properties in `MatchesIgnoresParameters`, `MatchesIsEquivalence`, `MatchesServerSentEvents`) |
| MediaTypeMaps.Possible | extensions/resteasy-classic/resteasy-common/deployment/src/main/java/io/quarkus/resteasy/common/deployment/ResteasyCommonProcessor.java:216 | `getPossible`: the names under the query's key together with the wildcard registrations (properties in `PossibleRespectsMatches`, `PossibleAfterInsert`, `PossibleWithinValues`) |
| Categorization.WithDeclared | extensions/resteasy-classic/resteasy-common/deployment/src/main/java/io/quarkus/resteasy/common/deployment/ResteasyCommonProcessor.java:422-429 | one annotation's registration: under each value, or under the wildcard when absent (characterised by `WithDeclaredContents`) |
| Categorization.CategorizeOne | extensions/resteasy-classic/resteasy-common/deployment/src/main/java/io/quarkus/resteasy/common/deployment/ResteasyCommonProcessor.java:416-455 | one iteration of the catalogue loop (characterised by `CategorizeOneContents`) |
| Categorization.CategorizeAll | extensions/resteasy-classic/resteasy-common/deployment/src/main/java/io/quarkus/resteasy/common/deployment/ResteasyCommonProcessor.java:415-457 | the catalogue loop in iteration order (characterised by `CategorizeAllContents`) |
| Categorization.Categorize | extensions/resteasy-classic/resteasy-common/deployment/src/main/java/io/quarkus/resteasy/common/deployment/ResteasyCommonProcessor.java:412-458 | categorisation from empty maps (characterised by `CategorizeContents` and `CategorizeOrderIrrelevant`) |
| DeclaredProviders.ElementType | extensions/resteasy-classic/resteasy-common/deployment/src/main/java/io/quarkus/resteasy/common/deployment/ResteasyCommonProcessor.java:612-621 | the SSE element type: `@SseElementType` first, then the `element-type` parameter (consequences in `SseAnnotationOverridesParameter`, `SseParameterFallback`, `SseElementTypeCandidates`) |
| ProviderSetup.EffectiveJsonDefault | extensions/resteasy-classic/resteasy-common/deployment/src/main/java/io/quarkus/resteasy/common/deployment/ResteasyCommonProcessor.java:122-128 | `resteasyConfig`: the configured JSON default and a Jackson or JSON-B capability prefix (characterised by `JsonDefaultRequiresBinding`) |
| ProviderSetup.InitialProviders | extensions/resteasy-classic/resteasy-common/deployment/src/main/java/io/quarkus/resteasy/common/deployment/ResteasyCommonProcessor.java:213-216 | the registration set before the scan: plain providers, `StringTextStar` and the JSON writers (consequences in `AlwaysRegistered`, `RegisteredSound`) |
| ProviderSetup.KeptNames | extensions/resteasy-classic/resteasy-common/deployment/src/main/java/io/quarkus/resteasy/common/deployment/ResteasyCommonProcessor.java:226-232 | the contributed names that are kept (characterised by `KeptNamesContents`) |
| ProviderSetup.KeptTargets | extensions/resteasy-classic/resteasy-common/deployment/src/main/java/io/quarkus/resteasy/common/deployment/ResteasyCommonProcessor.java:234-243 | the class targets of `@Provider` that are kept (characterised by `KeptTargetsContents`) |
| ProviderSetup.Setup | extensions/resteasy-classic/resteasy-common/deployment/src/main/java/io/quarkus/resteasy/common/deployment/ResteasyCommonProcessor.java:165-263 | the whole step from catalogue to build item (properties in `SetupOutcome`, `AlwaysRegistered`, `ContributedExactly`, `FallbackDeduplicates`, `RegisteredSound`) |
| OpenShift.IsOpenshiftBuildEnabled | extensions/kubernetes/vanilla/deployment/src/main/java/io/quarkus/kubernetes/deployment/OpenShiftConfig.java:136-140 | `isOpenshiftBuildEnabled` (characterised by `ExplicitBuilderDecides`, `ImplicitBuild`, `OtherBuilderWins`) |
| OpenShift.GetDeploymentResourceKind | extensions/kubernetes/vanilla/deployment/src/main/java/io/quarkus/kubernetes/deployment/OpenShiftConfig.java:142-149 | `getDeploymentResourceKind`, failure included (characterised by `ExplicitKindWins`, `DefaultKind`, `KindProvenance`) |
| OpenShift.GetSidecars | extensions/kubernetes/vanilla/deployment/src/main/java/io/quarkus/kubernetes/deployment/OpenShiftConfig.java:152-162 | `getSidecars` as written (characterised by `GetSidecarsBehaviour`) |
| OpenShift.GetSidecarsIntended | extensions/kubernetes/vanilla/deployment/src/main/java/io/quarkus/kubernetes/deployment/OpenShiftConfig.java:152-162 | the corrected rule (characterised by `SidecarsIntendedKeepsAll`, compared by `SidecarsRulesAgree`) |

## Left out

**Build wiring and warnings**

- Build-step plumbing: reflective-class registrations, the `AbstractJsonBindingProvider` registration,
  recorders, system properties and the unremovable-bean predicate (`ResteasyCommonProcessor.java:247-267`).
  These are framework side effects.
- Discovery of the catalogue from service files and loading classes by reflection. They are inputs here.
  The catalogue is the list of available names. Loadable classes are a map from name to the roles and
  annotation values reflection would report. A name missing from the map is a class that does not load.
- The JSON and Mutiny warning checks (`ResteasyCommonProcessor.java:185-210`), and everything that only
  logs. `isMediaTypeFoundInAnnotation` belongs to them and is not modelled.
- ASCII-only case folding: `equalsIgnoreCase` on non-ASCII letters is not modelled.

**Foreign classes**

- `MediaType.valueOf` and `MediaTypeMap` are not part of this model. Both are stated assumptions:
  - `Parse` splits on `;` and `/`, trims spaces, and reads `name=value` parameters with lower-cased names.
    A quoted value is accepted and kept with its quote characters (`ParseKeepsQuotes`): the unquoting
    of `valueOf` is not modelled. So `text/event-stream;element-type="application/json"` has an
    element type beginning with `"`, and `Inferred` looks its candidates up under that key rather than
    under the key of `application/json`.
  - The index keys entries by lower-cased type and subtype. `getPossible` returns the entries under the
    query's key and under the wildcard key, with no subtype-wildcard or suffix matching.
- `DeploymentResourceKind.isAvailalbleOn` and the active container-image capability are not part of this
  model. They are inputs: a set of kinds and an optional capability name.
- `containerName()` is declared outside `OpenShiftConfig.java` and is not part of this model. It is an
  optional string.

**How the model departs from the source**

- Jandex index queries: each index is a list of endpoints and a list of `@PartType` values. Endpoints are
  visited in the list order the index would return.
- Hash-set iteration order: the catalogue is given as a sequence. `CategorizeOrderIrrelevant` shows that
  any order of the same names gives the same result.
- Aliased media-type maps: `CategorizeProviders` requires its three maps to be distinct objects, as they
  are in `setupProviders`.
- Categorization.CategorizeProviders: on failure the contract does not describe the half-filled maps,
  because the exception aborts the build step.
- Categorization.AddDeclared: on failure the contract likewise does not describe `target`'s entries,
  which may already hold some of the annotation's keys, for the same reason.
- `providersToRegister` is passed to the collection as a value, and the method returns the new set,
  rather than mutating a shared `HashSet`. Likewise `otherProviders` is passed to `CategorizeProviders`
  as a value (`ResteasyCommonProcessor.java:412-414`, `ResteasyCommonProcessor.java:180-183`), and the
  completed set is returned instead of being filled in place. The three `MediaTypeMap`s are filled in place.
- The literal arrays `WILDCARD_MEDIA_TYPE_ARRAY` and `{APPLICATION_JSON}` are resolved through their
  parsed records (`ParseWildcard`, `ParseApplicationJson`).
- The built-in fallback has three effects. It drops catalogue names from the contributed and the
  `@Provider` sets (`ResteasyCommonProcessor.java:229`, `ResteasyCommonProcessor.java:239`), so no
  contributed or annotated catalogue name reaches `providersToRegister` through them
  (`FallbackDeduplicates`). It is passed on as the flag of the build item
  (`ResteasyCommonProcessor.java:263`, `SetupOutcome`). And it emits a reflection registration for every
  catalogue provider (`ResteasyCommonProcessor.java:247-251`), which is left out above. Under the fallback
  the catalogue providers still registered are the plain providers and the JSON writers, which the step
  adds whatever the flag is (`ResteasyCommonProcessor.java:213-216`, `AlwaysRegistered`), and whatever
  the endpoint scan added before it stopped. The fallback never adds the whole catalogue
  (`RegisteredSound`).

## Findings

| source | as written | input that shows it | evidently intended | confidence | as-written member | corrected member |
|---|---|---|---|---|---|---|
| extensions/kubernetes/vanilla/deployment/src/main/java/io/quarkus/kubernetes/deployment/OpenShiftConfig.java:153 | the conflict test checks the main container's name (`containerName()`) against `sidecars()` | (a) container name `app`, no deprecated containers, sidecar `log`: rejected with the conflict error. (b) no container name, deprecated container `old` and sidecar `log`: accepted, and `log` is dropped | reject exactly when both the deprecated `containers()` map and `sidecars()` are non-empty, as the error message says | not executed; likely | OpenShift.GetSidecarsRejectsContainerName, OpenShift.GetSidecarsDropsSidecars | OpenShift.SidecarsIntendedKeepsAll |
