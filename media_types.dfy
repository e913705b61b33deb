/** Media types as already-parsed records, the two comparisons the provider
    selection uses (`MediaType.equals` and the processor's own `matches`),
    and a simple parser standing in for `MediaType.valueOf`.

    Assumption (the Jakarta REST `MediaType` class is not part of this model):
    `valueOf` accepts `type/subtype` followed by `;name=value` parameters,
    ignores spaces around each piece and empty pieces, and rejects a string
    with no `/`, an empty type or subtype, or a parameter without a `=` or
    without a name. Rejection is the `IllegalArgumentException` the source
    lets propagate everywhere except for `@PartType`. */
module MediaTypes {
  import opened Outcomes
  import opened Text

  datatype MediaType = MediaType(topLevel: string, subtype: string, parameters: map<string, string>)

  /** `MediaType.WILDCARD_TYPE`: type and subtype both `*`. */
  const Wildcard := MediaType("*", "*", map[])
  /** `MediaType.APPLICATION_JSON_TYPE`. */
  const ApplicationJson := MediaType("application", "json", map[])
  /** `MediaType.TEXT_PLAIN_TYPE`, the SSE element type used when none is declared. */
  const TextPlain := MediaType("text", "plain", map[])
  /** `MediaType.SERVER_SENT_EVENTS_TYPE`. */
  const ServerSentEvents := MediaType("text", "event-stream", map[])
  /** The media-type parameter naming the SSE element type. */
  const ElementTypeParameter := "element-type"

  /** `MediaType.equals`: type and subtype ignoring case, and equal parameters. */
  predicate Same(a: MediaType, b: MediaType) {
    && EqualsIgnoreCase(a.topLevel, b.topLevel)
    && EqualsIgnoreCase(a.subtype, b.subtype)
    && a.parameters == b.parameters
  }

  /** `MediaType.WILDCARD_TYPE.equals(m)`, the test that stops the collection. */
  predicate IsWildcardType(m: MediaType) {
    Same(Wildcard, m)
  }

  /** The processor's `matches`: type and subtype ignoring case, parameters ignored. */
  predicate Matches(m1: MediaType, m2: MediaType) {
    EqualsIgnoreCase(m1.topLevel, m2.topLevel) && EqualsIgnoreCase(m1.subtype, m2.subtype)
  }

  /** Only the bare wildcard record (no parameters) is the wildcard type. */
  lemma WildcardTypeExactly(m: MediaType)
    ensures IsWildcardType(m) <==> m == Wildcard
  {
    EqualsIgnoreCaseStar(m.topLevel);
    EqualsIgnoreCaseStar(m.subtype);
  }

  /** `matches` ignores the parameters of both sides. */
  lemma MatchesIgnoresParameters(m1: MediaType, m2: MediaType, p1: map<string, string>, p2: map<string, string>)
    ensures Matches(m1, m2) <==> Matches(m1.(parameters := p1), m2.(parameters := p2))
  {
  }

  /** `matches` is an equivalence, and `equals` implies it. */
  lemma MatchesIsEquivalence(a: MediaType, b: MediaType, c: MediaType)
    ensures Matches(a, a)
    ensures Matches(a, b) ==> Matches(b, a)
    ensures Matches(a, b) && Matches(b, c) ==> Matches(a, c)
    ensures Same(a, b) ==> Matches(a, b)
  {
  }

  /** A media type matches the SSE type exactly when its lower-cased type and
      subtype are `text` and `event-stream`, whatever its parameters. */
  lemma MatchesServerSentEvents(m: MediaType)
    ensures Matches(ServerSentEvents, m) <==> Lower(m.topLevel) == "text" && Lower(m.subtype) == "event-stream"
  {
    LowerOfLower("text");
    LowerOfLower("event-stream");
  }

  /** `MediaType.valueOf` under the assumption stated for this module. */
  function Parse(s: string): (r: Option<MediaType>)
    ensures r.Some? ==> r.value.topLevel != [] && r.value.subtype != []
  {
    var pieces := Split(s, ';');
    var head := pieces[0];
    match IndexOf(head, '/')
    case None => None
    case Some(i) =>
      var topLevel := Trim(head[..i]);
      var subtype := Trim(head[i + 1..]);
      if topLevel == [] || subtype == [] then None
      else
        match ParseParameters(pieces[1..], map[])
        case None => None
        case Some(ps) => Some(MediaType(topLevel, subtype, ps))
  }

  /** The `name=value` pieces after the first `;`, added to `acc` in order. Names are
      lower-cased: Jakarta REST keeps parameters in a case-insensitive map. */
  function ParseParameters(pieces: seq<string>, acc: map<string, string>): Option<map<string, string>>
    decreases |pieces|
  {
    if pieces == [] then Some(acc)
    else
      var piece := Trim(pieces[0]);
      if piece == [] then ParseParameters(pieces[1..], acc)
      else
        match IndexOf(piece, '=')
        case None => None
        case Some(i) =>
          var name := Trim(piece[..i]);
          if name == [] then None
          else ParseParameters(pieces[1..], acc[Lower(name) := Trim(piece[i + 1..])])
  }

  // ---------------------------------------------------------------------
  // The inverse of Parse: writing a media type out as text.

  /** A type, subtype or parameter name as written in an annotation. */
  predicate Token(s: string) {
    && s != [] && s[0] != ' ' && s[|s| - 1] != ' '
    && '/' !in s && ';' !in s && '=' !in s
  }

  /** A parameter value (it may contain `/`, as an element type does). */
  predicate ParameterValue(v: string) {
    ';' !in v && (v == [] || (v[0] != ' ' && v[|v| - 1] != ' '))
  }

  predicate WellFormedParameters(ps: seq<(string, string)>) {
    forall i :: 0 <= i < |ps| ==> Token(ps[i].0) && ParameterValue(ps[i].1)
  }

  /** One parameter written as `name=value`. */
  function Piece(p: (string, string)): string {
    p.0 + "=" + p.1
  }

  function FormatParameters(ps: seq<(string, string)>): string {
    if ps == [] then "" else [';'] + (Piece(ps[0]) + FormatParameters(ps[1..]))
  }

  /** The text `type/subtype;name=value...` of a media type. */
  function Format(topLevel: string, subtype: string, ps: seq<(string, string)>): string {
    topLevel + "/" + subtype + FormatParameters(ps)
  }

  /** The parameter map that `ps` describes, keyed by lower-cased name; a later name
      overrides an earlier one. */
  function ParameterMap(acc: map<string, string>, ps: seq<(string, string)>): map<string, string>
    decreases |ps|
  {
    if ps == [] then acc else ParameterMap(acc[Lower(ps[0].0) := ps[0].1], ps[1..])
  }

  function Pieces(ps: seq<(string, string)>): seq<string> {
    if ps == [] then [] else [Piece(ps[0])] + Pieces(ps[1..])
  }

  lemma {:induction false} IndexOfFirst(x: string, c: char, y: string)
    requires c !in x
    ensures IndexOf(x + [c] + y, c) == Some(|x|)
  {
    var s := x + [c] + y;
    assert s[|x|] == c;
  }

  lemma {:induction false} SplitAt(x: string, sep: char, y: string)
    requires sep !in x
    ensures Split(x + [sep] + y, sep) == [x] + Split(y, sep)
  {
    var s := x + [sep] + y;
    IndexOfFirst(x, sep, y);
    assert s[..|x|] == x;
    assert s[|x| + 1..] == y;
  }

  lemma {:induction false} PieceHasNoSemicolon(name: string, value: string)
    requires Token(name) && ParameterValue(value)
    ensures ';' !in Piece((name, value))
  {
    var piece := Piece((name, value));
    forall i | 0 <= i < |piece| ensures piece[i] != ';' {
      if i < |name| {
        assert piece[i] == name[i];
      } else if i > |name| {
        assert piece[i] == value[i - |name| - 1];
      }
    }
  }

  lemma {:induction false} WellFormedTail(ps: seq<(string, string)>)
    requires ps != [] && WellFormedParameters(ps)
    ensures WellFormedParameters(ps[1..])
  {
    forall i | 0 <= i < |ps[1..]| ensures Token(ps[1..][i].0) && ParameterValue(ps[1..][i].1) {
      assert ps[1..][i] == ps[i + 1];
    }
  }

  lemma {:induction false} SplitFormatted(head: string, ps: seq<(string, string)>)
    requires ';' !in head
    requires WellFormedParameters(ps)
    ensures Split(head + FormatParameters(ps), ';') == [head] + Pieces(ps)
    decreases |ps|
  {
    if ps == [] {
      assert head + FormatParameters(ps) == head;
    } else {
      var piece := Piece(ps[0]);
      assert Token(ps[0].0) && ParameterValue(ps[0].1);
      PieceHasNoSemicolon(ps[0].0, ps[0].1);
      WellFormedTail(ps);
      SplitFormatted(piece, ps[1..]);
      var rest := piece + FormatParameters(ps[1..]);
      assert FormatParameters(ps) == [';'] + rest;
      assert head + ([';'] + rest) == head + [';'] + rest;
      SplitAt(head, ';', rest);
    }
  }

  lemma {:induction false} TrimPiece(name: string, value: string)
    requires Token(name) && ParameterValue(value)
    ensures Trim(name + ['='] + value) == name + ['='] + value
  {
    var piece := name + ['='] + value;
    assert piece[0] == name[0];
    assert piece[|piece| - 1] != ' ';
    TrimUnpadded(piece);
  }

  lemma {:induction false} SplitPiece(name: string, value: string)
    requires Token(name) && ParameterValue(value)
    ensures var piece := name + ['='] + value;
      && IndexOf(piece, '=') == Some(|name|)
      && Trim(piece[..|name|]) == name && Trim(piece[|name| + 1..]) == value
  {
    var piece := name + ['='] + value;
    IndexOfFirst(name, '=', value);
    assert piece[..|name|] == name;
    assert piece[|name| + 1..] == value;
    TrimUnpadded(name);
    TrimUnpadded(value);
  }

  /** One written parameter is read back as its name and value. */
  lemma {:induction false} ParsePiece(name: string, value: string)
    requires Token(name) && ParameterValue(value)
    ensures var piece := Piece((name, value));
      && Trim(piece) == piece && piece != []
      && IndexOf(piece, '=') == Some(|name|)
      && Trim(piece[..|name|]) == name && Trim(piece[|name| + 1..]) == value
  {
    assert Piece((name, value)) == name + ['='] + value;
    TrimPiece(name, value);
    SplitPiece(name, value);
  }

  lemma {:induction false} ParseParametersFormatted(acc: map<string, string>, ps: seq<(string, string)>)
    requires WellFormedParameters(ps)
    ensures ParseParameters(Pieces(ps), acc) == Some(ParameterMap(acc, ps))
    decreases |ps|
  {
    if ps != [] {
      ParsePiece(ps[0].0, ps[0].1);
      WellFormedTail(ps);
      ParseParametersFormatted(acc[Lower(ps[0].0) := ps[0].1], ps[1..]);
      assert Pieces(ps)[1..] == Pieces(ps[1..]);
    }
  }

  /** The head `topLevel/subtype` has no `;`, and its `/` is the one after `topLevel`. */
  lemma {:induction false} SplitHead(topLevel: string, subtype: string)
    requires Token(topLevel) && Token(subtype)
    ensures var head := topLevel + "/" + subtype;
      && ';' !in head
      && IndexOf(head, '/') == Some(|topLevel|)
      && Trim(head[..|topLevel|]) == topLevel && Trim(head[|topLevel| + 1..]) == subtype
  {
    var head := topLevel + "/" + subtype;
    forall i | 0 <= i < |head| ensures head[i] != ';' {
      if i < |topLevel| { assert head[i] == topLevel[i]; }
      else if i > |topLevel| { assert head[i] == subtype[i - |topLevel| - 1]; }
    }
    IndexOfFirst(topLevel, '/', subtype);
    assert head[..|topLevel|] == topLevel;
    assert head[|topLevel| + 1..] == subtype;
    TrimUnpadded(topLevel);
    TrimUnpadded(subtype);
  }

  /** Round trip: parsing the written form of a media type gives it back. */
  lemma {:induction false} ParseFormat(topLevel: string, subtype: string, ps: seq<(string, string)>)
    requires Token(topLevel) && Token(subtype) && WellFormedParameters(ps)
    ensures Parse(Format(topLevel, subtype, ps)) == Some(MediaType(topLevel, subtype, ParameterMap(map[], ps)))
  {
    var head := topLevel + "/" + subtype;
    SplitHead(topLevel, subtype);
    SplitFormatted(head, ps);
    assert Format(topLevel, subtype, ps) == head + FormatParameters(ps);
    ParseParametersFormatted(map[], ps);
  }

  /** A quoted parameter value is kept verbatim, quote characters included: the unquoting of
      `MediaType.valueOf` is not part of this model. */
  lemma ParseKeepsQuotes(topLevel: string, subtype: string, name: string, v: string)
    requires Token(topLevel) && Token(subtype) && Token(name) && ';' !in v
    ensures Parse(Format(topLevel, subtype, [(name, "\"" + v + "\"")]))
         == Some(MediaType(topLevel, subtype, map[Lower(name) := "\"" + v + "\""]))
  {
    var ps := [(name, "\"" + v + "\"")];
    assert WellFormedParameters(ps);
    ParseFormat(topLevel, subtype, ps);
    assert ParameterMap(map[], ps) == ParameterMap(map[][Lower(name) := "\"" + v + "\""], []);
  }

  /** The two literal media types the source parses: `MediaType.WILDCARD` ... */
  lemma ParseWildcard()
    ensures Parse("*/*") == Some(Wildcard)
  {
    assert ';' !in "*/*";
    assert Split("*/*", ';') == ["*/*"];
    assert IndexOf("*/*", '/') == Some(1);
    assert "*/*"[..1] == "*" && "*/*"[2..] == "*";
    TrimUnpadded("*");
  }

  /** ... and `MediaType.APPLICATION_JSON`. */
  lemma ParseApplicationJson()
    ensures Parse("application/json") == Some(ApplicationJson)
  {
    JsonTextHead();
    JsonTextPieces();
    NoParameters();
    JsonTextTrimmed();
  }

  lemma JsonTextTrimmed()
    ensures Trim("application") == "application" && Trim("json") == "json"
  {
    TrimUnpadded("application");
    TrimUnpadded("json");
  }

  lemma NoParameters()
    ensures ParseParameters([], map[]) == Some(map[])
  {
  }

  lemma JsonTextHead()
    ensures Split("application/json", ';') == ["application/json"]
    ensures IndexOf("application/json", '/') == Some(11)
  {
    assert ';' !in "application/json";
  }

  lemma JsonTextPieces()
    ensures "application/json"[..11] == "application" && "application/json"[12..] == "json"
  {
  }
}
