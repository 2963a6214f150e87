/** The two-tier JSON extractor `extract_json` (app.py:90-100): parse the
    whole text, otherwise parse the window picked by the regular expression
    `\{[\s\S]*\}`, otherwise give up. `json.loads` itself is a parameter. */
module Extraction {
  import opened JsonModel

  /** `json.loads` as a partial function: `None` when it raises. */
  type Parser = string -> Option<Json>

  /** The regular expression `\{[\s\S]*\}` matches exactly the slice
      `text[a..b+1]` when it starts at an opening brace and ends at a later
      closing brace (`[\s\S]` is any character, newlines included). */
  predicate IsBraceMatch(text: string, a: int, b: int)
  {
    0 <= a < b < |text| && text[a] == '{' && text[b] == '}'
  }

  /** `re.search` semantics for that pattern: the leftmost start that admits a
      match, and, the star being greedy, the longest match from that start. */
  ghost predicate IsSearchResult(text: string, a: int, b: int)
  {
    && IsBraceMatch(text, a, b)
    && (forall a', b' :: IsBraceMatch(text, a', b') ==> a <= a')
    && (forall b' :: IsBraceMatch(text, a, b') ==> b' <= b)
  }

  /** Position of the first occurrence of `c` at or after `from`. */
  function FirstFrom(s: string, c: char, from: nat): (r: Option<nat>)
    requires from <= |s|
    ensures r.Some? ==> from <= r.value < |s| && s[r.value] == c
    ensures r.Some? ==> forall k :: from <= k < r.value ==> s[k] != c
    ensures r.None? ==> forall k :: from <= k < |s| ==> s[k] != c
    decreases |s| - from
  {
    if from == |s| then None
    else if s[from] == c then Some(from)
    else FirstFrom(s, c, from + 1)
  }

  /** Position of the last occurrence of `c` strictly before `upto`. */
  function LastBefore(s: string, c: char, upto: nat): (r: Option<nat>)
    requires upto <= |s|
    ensures r.Some? ==> r.value < upto && s[r.value] == c
    ensures r.Some? ==> forall k :: r.value < k < upto ==> s[k] != c
    ensures r.None? ==> forall k :: 0 <= k < upto ==> s[k] != c
  {
    if upto == 0 then None
    else if s[upto - 1] == c then Some(upto - 1)
    else LastBefore(s, c, upto - 1)
  }

  /** The span `re.search(r'\{[\s\S]*\}', text)` selects, as the positions of
      its opening and closing brace: the first `{`, and the last `}` when that
      lies after it. */
  function BraceSpan(text: string): (r: Option<(nat, nat)>)
    ensures r.Some? ==> IsSearchResult(text, r.value.0, r.value.1)
    ensures r.None? <==> forall a, b :: !IsBraceMatch(text, a, b)
  {
    match FirstFrom(text, '{', 0)
    case None => None
    case Some(a) =>
      match LastBefore(text, '}', |text|)
      case None => None
      case Some(b) =>
        if a < b then Some((a, b))
        else
          assert forall a', b' :: IsBraceMatch(text, a', b') ==> a <= a' && b' <= b;
          None
  }

  /** `match.group()` for the brace search, when there is a match. */
  function BraceWindow(text: string): (w: Option<string>)
    ensures w.Some? ==> exists a, b :: IsSearchResult(text, a, b) && w.value == text[a..b + 1]
    ensures w.None? <==> forall a, b :: !IsBraceMatch(text, a, b)
  {
    match BraceSpan(text)
    case None => None
    case Some((a, b)) => Some(text[a..b + 1])
  }

  /** `extract_json(text)`: never raises; the result is the direct parse when
      there is one, else the parse of the brace window, else nothing. */
  function ExtractJson(parse: Parser, text: string): (r: Option<Json>)
    ensures parse(text).Some? ==> r == parse(text)
    ensures r.Some? && parse(text).None? ==>
      exists a, b :: IsSearchResult(text, a, b) && r == parse(text[a..b + 1])
  {
    match parse(text)
    case Some(v) => Some(v)
    case None =>
      match BraceWindow(text)
      case Some(w) => parse(w)
      case None => None
  }

  /** The regular-expression search has at most one result. */
  lemma SearchResultUnique(text: string, a: int, b: int, a': int, b': int)
    requires IsSearchResult(text, a, b) && IsSearchResult(text, a', b')
    ensures a == a' && b == b'
  {
  }

  /** Tier one: text that parses as a whole is returned as parsed and the
      brace window is never consulted. */
  lemma DirectParseWins(parse: Parser, text: string)
    requires parse(text).Some?
    ensures ExtractJson(parse, text) == parse(text)
    ensures forall other: Parser :: other(text) == parse(text) ==> ExtractJson(other, text) == parse(text)
  {
  }

  /** Tier two: text that does not parse yields exactly the parse of the
      regular-expression match, `None` included. */
  lemma FallbackParsesSearchWindow(parse: Parser, text: string, a: int, b: int)
    requires parse(text).None?
    requires IsSearchResult(text, a, b)
    ensures ExtractJson(parse, text) == parse(text[a..b + 1])
  {
    var span := BraceSpan(text);
    SearchResultUnique(text, a, b, span.value.0, span.value.1);
  }

  /** When the text does not parse and has no `}` after its first `{`
      (in particular when it has no `{` at all) the result is `None`. */
  lemma NoWindowMeansNone(parse: Parser, text: string)
    requires parse(text).None?
    requires forall i, j :: 0 <= i < j < |text| && text[i] == '{' ==> text[j] != '}'
    ensures ExtractJson(parse, text) == None
  {
  }

  /** Prose around a braced payload: when the prefix holds no `{` and the
      suffix no `}`, the fallback recovers exactly the payload. */
  lemma ProseWrappedPayload(parse: Parser, prefix: string, payload: string, suffix: string)
    requires '{' !in prefix && '}' !in suffix
    requires |payload| >= 2 && payload[0] == '{' && payload[|payload| - 1] == '}'
    requires parse(prefix + payload + suffix).None?
    ensures ExtractJson(parse, prefix + payload + suffix) == parse(payload)
  {
    var text := prefix + payload + suffix;
    var a, b := |prefix|, |prefix| + |payload| - 1;
    assert text[a] == payload[0];
    assert text[b] == payload[|payload| - 1];
    assert text[a..b + 1] == payload;
    FallbackParsesSearchWindow(parse, text, a, b);
  }
}
