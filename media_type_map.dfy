/** RESTEasy's `MediaTypeMap<String>`, the index from media types to provider
    class names that categorisation fills and every lookup reads.

    Assumption (the class is not part of this model): an entry is keyed by the
    lower-cased type and subtype of its media type, parameters dropped, and
    `getPossible(m)` returns the names under `m`'s own key together with the
    names under the wildcard key. No subtype-wildcard or structured-suffix matching is
    attributed to it. */
module MediaTypeMaps {
  import opened Text
  import opened MediaTypes

  datatype MediaKey = MediaKey(topLevel: string, subtype: string)

  type Index = map<MediaKey, set<string>>

  /** The reserved key under which wildcard-type registrations are stored. */
  const WildcardKey := MediaKey("*", "*")

  function KeyOf(m: MediaType): MediaKey {
    MediaKey(Lower(m.topLevel), Lower(m.subtype))
  }

  /** The names stored under one key (none when the key is absent). */
  function Registered(ix: Index, k: MediaKey): set<string> {
    if k in ix then ix[k] else {}
  }

  /** `getPossible`: the candidates for `m`. */
  function Possible(ix: Index, m: MediaType): set<string> {
    Registered(ix, KeyOf(m)) + Registered(ix, WildcardKey)
  }

  /** `add`: the index with `provider` registered under `m`. */
  function Insert(ix: Index, m: MediaType, provider: string): (r: Index)
    ensures Registered(r, KeyOf(m)) == Registered(ix, KeyOf(m)) + {provider}
    ensures forall k :: k != KeyOf(m) ==> Registered(r, k) == Registered(ix, k)
  {
    ix[KeyOf(m) := Registered(ix, KeyOf(m)) + {provider}]
  }

  /** One key after an `add`. */
  lemma RegisteredAfterInsert(ix: Index, m: MediaType, provider: string, k: MediaKey)
    ensures Registered(Insert(ix, m, provider), k)
         == Registered(ix, k) + (if KeyOf(m) == k then {provider} else {})
  {
  }

  /** Every name registered under any key. */
  function Values(ix: Index): set<string> {
    set k, p | k in ix && p in ix[k] :: p
  }

  /** The wildcard type is stored under the wildcard key. */
  lemma WildcardTypeKey(m: MediaType)
    ensures IsWildcardType(m) ==> KeyOf(m) == WildcardKey
  {
    WildcardTypeExactly(m);
    if IsWildcardType(m) {
      LowerOfLower("*");
    }
  }

  /** Lookup ignores parameters: media types that `matches` relates have the same candidates. */
  lemma PossibleRespectsMatches(ix: Index, a: MediaType, b: MediaType)
    ensures Matches(a, b) <==> KeyOf(a) == KeyOf(b)
    ensures Matches(a, b) ==> Possible(ix, a) == Possible(ix, b)
  {
  }

  /** A provider added under `m` is a candidate for `m`. */
  lemma InsertedIsPossible(ix: Index, m: MediaType, provider: string)
    ensures provider in Possible(Insert(ix, m, provider), m)
  {
  }

  /** Wildcard registrations are candidates whatever the queried type. */
  lemma WildcardAlwaysPossible(ix: Index, m: MediaType)
    ensures Registered(ix, WildcardKey) <= Possible(ix, m)
  {
  }

  /** Exactly what one `add` changes in every later lookup. */
  lemma PossibleAfterInsert(ix: Index, m: MediaType, provider: string, q: MediaType)
    ensures Possible(Insert(ix, m, provider), q)
         == Possible(ix, q) + (if KeyOf(m) == KeyOf(q) || KeyOf(m) == WildcardKey then {provider} else {})
  {
    var r := Insert(ix, m, provider);
    if KeyOf(m) == KeyOf(q) {
      assert Registered(r, KeyOf(q)) == Registered(ix, KeyOf(q)) + {provider};
    } else {
      assert Registered(r, KeyOf(q)) == Registered(ix, KeyOf(q));
    }
    if KeyOf(m) == WildcardKey {
      assert Registered(r, WildcardKey) == Registered(ix, WildcardKey) + {provider};
    } else {
      assert Registered(r, WildcardKey) == Registered(ix, WildcardKey);
    }
  }

  /** Every candidate is a registered name. */
  lemma PossibleWithinValues(ix: Index, m: MediaType)
    ensures Possible(ix, m) <= Values(ix)
  {
    forall p | p in Possible(ix, m) ensures p in Values(ix) {
      if p in Registered(ix, KeyOf(m)) {
        assert KeyOf(m) in ix && p in ix[KeyOf(m)];
      } else {
        assert WildcardKey in ix && p in ix[WildcardKey];
      }
    }
  }

  /** `add` registers exactly one more name. */
  lemma ValuesAfterInsert(ix: Index, m: MediaType, provider: string)
    ensures Values(Insert(ix, m, provider)) == Values(ix) + {provider}
  {
    var r := Insert(ix, m, provider);
    forall p | p in Values(r) ensures p in Values(ix) + {provider} {
      var k :| k in r && p in r[k];
      assert p in Registered(r, k);
      if k != KeyOf(m) {
        assert p in Registered(ix, k);
      }
    }
    forall p | p in Values(ix) ensures p in Values(r) {
      var k :| k in ix && p in ix[k];
      assert p in Registered(r, k);
    }
    assert provider in r[KeyOf(m)];
  }

  /** The mutable map itself: `add` updates it in place. */
  class MediaTypeMap {
    var entries: Index

    constructor ()
      ensures entries == map[]
    {
      entries := map[];
    }

    method Add(m: MediaType, provider: string)
      modifies this
      ensures entries == Insert(old(entries), m, provider)
    {
      entries := Insert(entries, m, provider);
    }
  }
}
