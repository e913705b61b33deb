/** String helpers standing in for the few `java.lang.String` operations the
    model needs: ASCII case folding (`equalsIgnoreCase`), `contains`,
    `startsWith`, and the splitting and trimming the media-type parser uses. */
module Text {
  import opened Outcomes

  /** `Character.toLowerCase` restricted to ASCII letters. */
  function LowerChar(c: char): (r: char)
    ensures 'A' <= c <= 'Z' ==> r as int == c as int + 32
    ensures !('A' <= c <= 'Z') ==> r == c
  {
    if 'A' <= c <= 'Z' then (c as int + 32) as char else c
  }

  function Lower(s: string): (r: string)
    ensures |r| == |s|
    ensures forall i :: 0 <= i < |s| ==> r[i] == LowerChar(s[i])
  {
    seq(|s|, i requires 0 <= i < |s| => LowerChar(s[i]))
  }

  /** `String.equalsIgnoreCase` for ASCII text. */
  predicate EqualsIgnoreCase(a: string, b: string) {
    Lower(a) == Lower(b)
  }

  /** A string with no upper-case ASCII letter is its own lower-case form. */
  lemma {:induction false} LowerOfLower(s: string)
    requires forall i :: 0 <= i < |s| ==> !('A' <= s[i] <= 'Z')
    ensures Lower(s) == s
  {
  }

  /** The only string equal to `"*"` ignoring case is `"*"` itself. */
  lemma {:induction false} EqualsIgnoreCaseStar(s: string)
    ensures EqualsIgnoreCase("*", s) <==> s == "*"
  {
    if EqualsIgnoreCase("*", s) {
      assert Lower("*") == "*";
      assert |s| == 1 && LowerChar(s[0]) == '*';
      assert s == [s[0]];
    }
  }

  predicate StartsWith(s: string, prefix: string) {
    |prefix| <= |s| && s[..|prefix|] == prefix
  }

  /** `sub` occurs in `s` starting at position `i`. */
  predicate OccursAt(s: string, sub: string, i: int) {
    0 <= i <= |s| - |sub| && s[i..i + |sub|] == sub
  }

  /** `String.contains`: `sub` occurs somewhere in `s`. */
  predicate Contains(s: string, sub: string) {
    exists i | 0 <= i <= |s| :: OccursAt(s, sub, i)
  }

  /** The first position of `c` in `s`, if any. */
  function IndexOf(s: string, c: char): (r: Option<nat>)
    ensures r.Some? ==> r.value < |s| && s[r.value] == c
    ensures r.Some? ==> forall j :: 0 <= j < r.value ==> s[j] != c
    ensures r.None? <==> c !in s
  {
    IndexOfFrom(s, c, 0)
  }

  /** The first position of `c` in `s` at or after `k`, if any. */
  function IndexOfFrom(s: string, c: char, k: nat): (r: Option<nat>)
    requires k <= |s|
    ensures r.Some? ==> k <= r.value < |s| && s[r.value] == c
    ensures r.Some? ==> forall j :: k <= j < r.value ==> s[j] != c
    ensures r.None? <==> forall j :: k <= j < |s| ==> s[j] != c
    decreases |s| - k
  {
    if k == |s| then None
    else if s[k] == c then Some(k)
    else IndexOfFrom(s, c, k + 1)
  }

  /** The pieces of `s` between occurrences of `sep` (always at least one). */
  function Split(s: string, sep: char): (parts: seq<string>)
    ensures |parts| >= 1
    ensures sep !in s ==> parts == [s]
    decreases |s|
  {
    match IndexOf(s, sep)
    case None => [s]
    case Some(i) => [s[..i]] + Split(s[i + 1..], sep)
  }

  /** `s` without its leading and trailing spaces. */
  function Trim(s: string): string
    decreases |s|
  {
    if |s| > 0 && s[0] == ' ' then Trim(s[1..])
    else if |s| > 0 && s[|s| - 1] == ' ' then Trim(s[..|s| - 1])
    else s
  }

  lemma {:induction false} TrimUnpadded(s: string)
    requires s == [] || (s[0] != ' ' && s[|s| - 1] != ' ')
    ensures Trim(s) == s
  {
  }
}
