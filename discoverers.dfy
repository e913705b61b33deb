/** `PROVIDER_DISCOVERERS`: for each HTTP method annotation, whether a resource
    method with no `@Consumes` (resp. `@Produces`) anywhere is taken to accept
    (resp. produce) every media type. */
module ProviderDiscoverers {

  /** The JAX-RS HTTP method annotations the processor scans for. */
  datatype Verb = Get | Head | Delete | Options | Patch | Post | Put

  datatype ProviderDiscoverer = ProviderDiscoverer(
    methodAnnotation: Verb,
    noConsumesDefaultsToAll: bool,
    noProducesDefaultsToAll: bool)

  /** The table, in the order the processor visits it. */
  const Discoverers: seq<ProviderDiscoverer> := [
    ProviderDiscoverer(Get, false, true),
    ProviderDiscoverer(Head, false, false),
    ProviderDiscoverer(Delete, true, false),
    ProviderDiscoverer(Options, false, true),
    ProviderDiscoverer(Patch, true, false),
    ProviderDiscoverer(Post, true, true),
    ProviderDiscoverer(Put, true, false)
  ]

  /** Methods whose request body is assumed to be arbitrary when nothing is declared. */
  predicate BodyVerb(v: Verb) {
    v == Delete || v == Patch || v == Post || v == Put
  }

  /** Methods whose response is assumed to be arbitrary when nothing is declared. */
  predicate ResponseVerb(v: Verb) {
    v == Get || v == Options || v == Post
  }

  /** The table entry for a verb. */
  function DiscovererFor(v: Verb): (d: ProviderDiscoverer)
    ensures d in Discoverers && d.methodAnnotation == v
    ensures d.noConsumesDefaultsToAll <==> BodyVerb(v)
    ensures d.noProducesDefaultsToAll <==> ResponseVerb(v)
  {
    match v
    case Get => Discoverers[0]
    case Head => Discoverers[1]
    case Delete => Discoverers[2]
    case Options => Discoverers[3]
    case Patch => Discoverers[4]
    case Post => Discoverers[5]
    case Put => Discoverers[6]
  }

  /** Every verb has exactly one entry, so each annotated method is visited with one policy. */
  lemma EachVerbOnce(v: Verb, i: int, j: int)
    requires 0 <= i < |Discoverers| && 0 <= j < |Discoverers|
    requires Discoverers[i].methodAnnotation == v && Discoverers[j].methodAnnotation == v
    ensures i == j && Discoverers[i] == DiscovererFor(v)
  {
  }

  /** Every entry's flags are the verb's: a body is assumed for DELETE, PATCH, POST and PUT,
      a response for GET, OPTIONS and POST, and neither for HEAD. */
  lemma DiscoverersPolicy(d: ProviderDiscoverer)
    requires d in Discoverers
    ensures d == DiscovererFor(d.methodAnnotation)
    ensures d.noConsumesDefaultsToAll <==> BodyVerb(d.methodAnnotation)
    ensures d.noProducesDefaultsToAll <==> ResponseVerb(d.methodAnnotation)
  {
  }
}
