/** `categorizeProviders`: every provider class named in a service file is
    loaded and sorted into message-body readers (by the media types it
    consumes), message-body writers (by the media types it produces), context
    resolvers (by the media types they produce) and everything else.

    The class loader is a map from class name to what reflection reports about
    the class; a name absent from it is a class that fails to load, which the
    source skips. A declared media type that does not parse aborts the whole
    step, as `MediaType.valueOf` throwing does. */
module Categorization {
  import opened Outcomes
  import opened MediaTypes
  import opened MediaTypeMaps

  /** What reflection reports about a loaded provider class. `consumes` and
      `produces` are the values of its class-level `@Consumes` and `@Produces`,
      `None` when the annotation is absent. */
  datatype ProviderClass = ProviderClass(
    reader: bool,
    writer: bool,
    contextResolver: bool,
    consumes: Option<seq<string>>,
    produces: Option<seq<string>>)

  /** The classes that load, by name. */
  type ClassPath = map<string, ProviderClass>

  datatype Categories = Categories(readers: Index, writers: Index, resolvers: Index, others: set<string>)

  const NoCategories := Categories(map[], map[], map[], {})

  /** Every value parses as a media type. */
  predicate AllParse(values: seq<string>) {
    forall i | 0 <= i < |values| :: Parse(values[i]).Some?
  }

  /** Some value of `values` parses to a media type stored under key `k`. */
  predicate DeclaresKey(values: seq<string>, k: MediaKey) {
    exists i | 0 <= i < |values| :: Parse(values[i]).Some? && KeyOf(Parse(values[i]).value) == k
  }

  /** The keys an optional annotation registers: its values, or the wildcard when absent. */
  predicate DeclaredKey(declared: Option<seq<string>>, k: MediaKey) {
    match declared
    case None => k == WildcardKey
    case Some(values) => DeclaresKey(values, k)
  }

  predicate WellDeclared(declared: Option<seq<string>>) {
    declared.Some? ==> AllParse(declared.value)
  }

  /** `name` added under each of `values`, failing on the first that does not parse. */
  function WithAll(ix: Index, values: seq<string>, name: string): (r: Result<Index, string>)
    ensures r.Ok? <==> AllParse(values)
    ensures r.Err? ==> r.error in values && Parse(r.error).None?
    decreases |values|
  {
    if values == [] then Ok(ix)
    else
      match Parse(values[0])
      case None => Err(values[0])
      case Some(m) =>
        var r := WithAll(Insert(ix, m, name), values[1..], name);
        AllParseCons(values);
        r
  }

  /** `name` added under an annotation's values, or under the wildcard type when it is absent. */
  function WithDeclared(ix: Index, declared: Option<seq<string>>, name: string): Result<Index, string> {
    match declared
    case None => Ok(Insert(ix, Wildcard, name))
    case Some(values) => WithAll(ix, values, name)
  }

  /** The roles reflection reports, in the source's order of precedence. */
  predicate ReadsAt(pc: ProviderClass, k: MediaKey) {
    pc.reader && DeclaredKey(pc.consumes, k)
  }

  predicate WritesAt(pc: ProviderClass, k: MediaKey) {
    pc.writer && DeclaredKey(pc.produces, k)
  }

  predicate ResolvesAt(pc: ProviderClass, k: MediaKey) {
    !pc.reader && !pc.writer && pc.contextResolver && DeclaredKey(pc.produces, k)
  }

  predicate IsOther(pc: ProviderClass) {
    !pc.reader && !pc.writer && !pc.contextResolver
  }

  /** The annotations the source parses for this class all parse. */
  predicate Categorizable(pc: ProviderClass) {
    && (pc.reader ==> WellDeclared(pc.consumes))
    && (pc.writer ==> WellDeclared(pc.produces))
    && (!pc.reader && !pc.writer && pc.contextResolver ==> WellDeclared(pc.produces))
  }

  /** Every available class that loads is categorisable. */
  predicate AllCategorizable(cp: ClassPath, names: seq<string>) {
    forall p | p in names && p in cp :: Categorizable(cp[p])
  }

  /** One iteration of the loop over the available providers. */
  function CategorizeOne(c: Categories, cp: ClassPath, name: string): Result<Categories, string> {
    if name !in cp then Ok(c)
    else
      var pc := cp[name];
      if pc.reader || pc.writer then
        var readers :- if pc.reader then WithDeclared(c.readers, pc.consumes, name) else Ok(c.readers);
        var writers :- if pc.writer then WithDeclared(c.writers, pc.produces, name) else Ok(c.writers);
        Ok(c.(readers := readers, writers := writers))
      else if pc.contextResolver then
        var resolvers :- WithDeclared(c.resolvers, pc.produces, name);
        Ok(c.(resolvers := resolvers))
      else
        Ok(c.(others := c.others + {name}))
  }

  /** The whole loop, in iteration order. */
  function CategorizeAll(c: Categories, cp: ClassPath, names: seq<string>): Result<Categories, string>
    decreases |names|
  {
    if names == [] then Ok(c)
    else
      var c' :- CategorizeOne(c, cp, names[0]);
      CategorizeAll(c', cp, names[1..])
  }

  /** Categorisation from empty maps, as the build step calls it. */
  function Categorize(cp: ClassPath, names: seq<string>): Result<Categories, string> {
    CategorizeAll(NoCategories, cp, names)
  }

  /** `AllParse` and `DeclaresKey` of a non-empty sequence, by its head and its tail. */
  lemma {:induction false} AllParseCons(values: seq<string>)
    requires values != []
    ensures AllParse(values) <==> Parse(values[0]).Some? && AllParse(values[1..])
  {
    var tail := values[1..];
    if AllParse(values) {
      forall i | 0 <= i < |tail| ensures Parse(tail[i]).Some? {
        assert tail[i] == values[i + 1];
      }
    }
    if Parse(values[0]).Some? && AllParse(tail) {
      forall i | 0 <= i < |values| ensures Parse(values[i]).Some? {
        if i > 0 {
          assert values[i] == tail[i - 1];
        }
      }
    }
  }

  lemma {:induction false} DeclaresKeyCons(values: seq<string>, k: MediaKey)
    requires values != [] && Parse(values[0]).Some?
    ensures DeclaresKey(values, k) <==> KeyOf(Parse(values[0]).value) == k || DeclaresKey(values[1..], k)
  {
    if DeclaresKey(values[1..], k) {
      var i :| 0 <= i < |values[1..]| && Parse(values[1..][i]).Some? && KeyOf(Parse(values[1..][i]).value) == k;
      assert values[1..][i] == values[i + 1];
    }
    if DeclaresKey(values, k) && KeyOf(Parse(values[0]).value) != k {
      var i :| 0 <= i < |values| && Parse(values[i]).Some? && KeyOf(Parse(values[i]).value) == k;
      assert values[1..][i - 1] == values[i];
    }
  }

  /** One step of `WithAll` on a value that parses. */
  lemma {:induction false} WithAllStep(ix: Index, values: seq<string>, name: string)
    requires values != [] && Parse(values[0]).Some?
    ensures WithAll(ix, values, name) == WithAll(Insert(ix, Parse(values[0]).value, name), values[1..], name)
  {
  }

  lemma WildcardKeyOfWildcard()
    ensures KeyOf(Wildcard) == WildcardKey
  {
    WildcardTypeKey(Wildcard);
  }

  /** Exactly the keys of the parsed values gain `name`. */
  lemma {:induction false} WithAllContents(ix: Index, values: seq<string>, name: string, k: MediaKey)
    requires AllParse(values)
    ensures WithAll(ix, values, name).Ok?
    ensures Registered(WithAll(ix, values, name).value, k)
         == Registered(ix, k) + (if DeclaresKey(values, k) then {name} else {})
    decreases |values|
  {
    if values != [] {
      var tail := values[1..];
      var m := Parse(values[0]).value;
      var ix' := Insert(ix, m, name);
      AllParseCons(values);
      DeclaresKeyCons(values, k);
      WithAllContents(ix', tail, name, k);
      WithAllStep(ix, values, name);
      RegisteredAfterInsert(ix, m, name, k);
    }
  }

  /** Exactly the keys an annotation declares gain `name`; only a malformed value fails. */
  lemma WithDeclaredContents(ix: Index, declared: Option<seq<string>>, name: string, k: MediaKey)
    ensures WithDeclared(ix, declared, name).Ok? <==> WellDeclared(declared)
    ensures WellDeclared(declared) ==>
      Registered(WithDeclared(ix, declared, name).value, k)
        == Registered(ix, k) + (if DeclaredKey(declared, k) then {name} else {})
  {
    WildcardKeyOfWildcard();
    if declared.Some? && AllParse(declared.value) {
      WithAllContents(ix, declared.value, name, k);
    }
  }

  /** One class: where it lands, and that it fails only on a malformed annotation. */
  lemma CategorizeOneContents(c: Categories, cp: ClassPath, name: string, k: MediaKey, p: string)
    ensures var r := CategorizeOne(c, cp, name);
      && (r.Ok? <==> (name in cp ==> Categorizable(cp[name])))
      && (r.Ok? ==>
        && (p in Registered(r.value.readers, k) <==>
              p in Registered(c.readers, k) || (p == name && name in cp && ReadsAt(cp[name], k)))
        && (p in Registered(r.value.writers, k) <==>
              p in Registered(c.writers, k) || (p == name && name in cp && WritesAt(cp[name], k)))
        && (p in Registered(r.value.resolvers, k) <==>
              p in Registered(c.resolvers, k) || (p == name && name in cp && ResolvesAt(cp[name], k)))
        && (p in r.value.others <==> p in c.others || (p == name && name in cp && IsOther(cp[name]))))
  {
    if name in cp {
      var pc := cp[name];
      WithDeclaredContents(c.readers, pc.consumes, name, k);
      WithDeclaredContents(c.writers, pc.produces, name, k);
      WithDeclaredContents(c.resolvers, pc.produces, name, k);
    }
  }

  /** The loop fails exactly when some loadable class carries a malformed annotation, and
      otherwise each map holds exactly the names whose class declares that key in that role. */
  lemma {:induction false} CategorizeAllContents(c: Categories, cp: ClassPath, names: seq<string>, k: MediaKey, p: string)
    ensures var r := CategorizeAll(c, cp, names);
      && (r.Ok? <==> AllCategorizable(cp, names))
      && (r.Ok? ==>
        && (p in Registered(r.value.readers, k) <==>
              p in Registered(c.readers, k) || (p in names && p in cp && ReadsAt(cp[p], k)))
        && (p in Registered(r.value.writers, k) <==>
              p in Registered(c.writers, k) || (p in names && p in cp && WritesAt(cp[p], k)))
        && (p in Registered(r.value.resolvers, k) <==>
              p in Registered(c.resolvers, k) || (p in names && p in cp && ResolvesAt(cp[p], k)))
        && (p in r.value.others <==> p in c.others || (p in names && p in cp && IsOther(cp[p]))))
    decreases |names|
  {
    if names != [] {
      var name := names[0];
      CategorizeOneContents(c, cp, name, k, p);
      var one := CategorizeOne(c, cp, name);
      if one.Ok? {
        CategorizeAllContents(one.value, cp, names[1..], k, p);
        assert CategorizeAll(c, cp, names) == CategorizeAll(one.value, cp, names[1..]);
        assert forall q :: q in names <==> q == name || q in names[1..] by {
          assert names == [name] + names[1..];
        }
      }
    }
  }

  /** From empty maps: a provider is registered under a key exactly when it is available, loads
      and declares that key in that role, and it is an "other" provider exactly when it loads with
      none of the three roles. */
  lemma CategorizeContents(cp: ClassPath, names: seq<string>, k: MediaKey, p: string)
    ensures var r := Categorize(cp, names);
      && (r.Ok? <==> AllCategorizable(cp, names))
      && (r.Ok? ==>
        && (p in Registered(r.value.readers, k) <==> p in names && p in cp && ReadsAt(cp[p], k))
        && (p in Registered(r.value.writers, k) <==> p in names && p in cp && WritesAt(cp[p], k))
        && (p in Registered(r.value.resolvers, k) <==> p in names && p in cp && ResolvesAt(cp[p], k))
        && (p in r.value.others <==> p in names && p in cp && IsOther(cp[p])))
  {
    CategorizeAllContents(NoCategories, cp, names, k, p);
  }

  /** The source iterates a hash set, in no particular order: any two orders of the same names
      categorise alike. */
  lemma CategorizeOrderIrrelevant(cp: ClassPath, names1: seq<string>, names2: seq<string>, k: MediaKey)
    requires forall p :: p in names1 <==> p in names2
    ensures Categorize(cp, names1).Ok? <==> Categorize(cp, names2).Ok?
    ensures Categorize(cp, names1).Ok? ==>
      var r1, r2 := Categorize(cp, names1).value, Categorize(cp, names2).value;
      && Registered(r1.readers, k) == Registered(r2.readers, k)
      && Registered(r1.writers, k) == Registered(r2.writers, k)
      && Registered(r1.resolvers, k) == Registered(r2.resolvers, k)
      && r1.others == r2.others
  {
    CategorizeContents(cp, names1, k, "");
    CategorizeContents(cp, names2, k, "");
    if Categorize(cp, names1).Ok? {
      var r1, r2 := Categorize(cp, names1).value, Categorize(cp, names2).value;
      forall p ensures p in Registered(r1.readers, k) <==> p in Registered(r2.readers, k)
        ensures p in Registered(r1.writers, k) <==> p in Registered(r2.writers, k)
        ensures p in Registered(r1.resolvers, k) <==> p in Registered(r2.resolvers, k)
        ensures p in r1.others <==> p in r2.others
      {
        CategorizeContents(cp, names1, k, p);
        CategorizeContents(cp, names2, k, p);
      }
    }
  }

  /** Adds `name` to `target` under each declared media type, stopping at one that does not parse. */
  method AddDeclared(target: MediaTypeMap, declared: Option<seq<string>>, name: string) returns (failure: Option<string>)
    modifies target
    ensures var spec := WithDeclared(old(target.entries), declared, name);
      && (failure.Some? <==> spec.Err?)
      && (spec.Err? ==> failure.value == spec.error)
      && (spec.Ok? ==> target.entries == spec.value)
  {
    match declared {
      case None =>
        target.Add(Wildcard, name);
        return None;
      case Some(values) =>
        var i := 0;
        while i < |values|
          invariant 0 <= i <= |values|
          invariant WithAll(old(target.entries), values, name) == WithAll(target.entries, values[i..], name)
        {
          assert values[i..][1..] == values[i + 1..];
          match Parse(values[i]) {
            case None =>
              return Some(values[i]);
            case Some(m) =>
              target.Add(m, name);
          }
          i := i + 1;
        }
        return None;
    }
  }

  /** The loop of `categorizeProviders` over the available provider names, filling the three maps
      in place and returning the "other" providers. */
  method CategorizeProviders(
    cp: ClassPath, available: seq<string>,
    readers: MediaTypeMap, writers: MediaTypeMap, resolvers: MediaTypeMap, others: set<string>)
    returns (outcome: Result<set<string>, string>)
    requires readers != writers && writers != resolvers && readers != resolvers
    modifies readers, writers, resolvers
    ensures var spec := CategorizeAll(
              Categories(old(readers.entries), old(writers.entries), old(resolvers.entries), others),
              cp, available);
      && (outcome.Err? <==> spec.Err?)
      && (spec.Err? ==> outcome.error == spec.error)
      && (spec.Ok? ==>
        && outcome.value == spec.value.others
        && readers.entries == spec.value.readers
        && writers.entries == spec.value.writers
        && resolvers.entries == spec.value.resolvers)
  {
    var acc := others;
    var i := 0;
    while i < |available|
      invariant 0 <= i <= |available|
      invariant
        CategorizeAll(Categories(old(readers.entries), old(writers.entries), old(resolvers.entries), others), cp, available)
        == CategorizeAll(Categories(readers.entries, writers.entries, resolvers.entries, acc), cp, available[i..])
    {
      var name := available[i];
      assert available[i..][0] == name && available[i..][1..] == available[i + 1..];
      ghost var before := Categories(readers.entries, writers.entries, resolvers.entries, acc);
      if name in cp {
        var pc := cp[name];
        if pc.reader || pc.writer {
          if pc.reader {
            var failure := AddDeclared(readers, pc.consumes, name);
            if failure.Some? {
              return Err(failure.value);
            }
          }
          if pc.writer {
            var failure := AddDeclared(writers, pc.produces, name);
            if failure.Some? {
              return Err(failure.value);
            }
          }
        } else if pc.contextResolver {
          var failure := AddDeclared(resolvers, pc.produces, name);
          if failure.Some? {
            return Err(failure.value);
          }
        } else {
          acc := acc + {name};
        }
      }
      assert CategorizeOne(before, cp, name)
          == Ok(Categories(readers.entries, writers.entries, resolvers.entries, acc));
      i := i + 1;
    }
    return Ok(acc);
  }
}
