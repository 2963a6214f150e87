/** The score-based regeneration decision of the optimizer (app.py:303-309,
    324-325): read `overall_engineering_score` from the score document
    (default `"0"`), render it with `str()`, keep what precedes the first
    `/`, convert with `int()`, and regenerate below 6. */
module ScoreParsing {
  import opened JsonModel

  /** Scores below this value trigger regeneration (app.py:309). */
  const Threshold: int := 6

  /** The member of the score document holding the overall score. */
  const ScoreKey: string := "overall_engineering_score"

  /** The characters Python's `str.strip()` removes (`str.isspace()`): the
      whitespace `int()` skips, and the four ASCII separators 0x1C to 0x1F. */
  predicate IsSpace(c: char)
  {
    IsIntSpace(c) || (28 <= c as int <= 31)
  }

  /** The characters `int()` skips around its digits: space, tab, line feed,
      vertical tab, form feed and carriage return, and every non-ASCII
      whitespace character, which `int()` first turns into a space. */
  predicate IsIntSpace(c: char)
  {
    c == ' ' || (9 <= c as int <= 13) || IsWideSpace(c)
  }

  /** The whitespace characters above ASCII: next line, no-break space, the
      Ogham space mark, the spaces U+2000 to U+200A, the line and paragraph
      separators, the narrow no-break space, the medium mathematical space
      and the ideographic space. */
  predicate IsWideSpace(c: char)
  {
    var n := c as int;
    n == 0x85 || n == 0xA0 || n == 0x1680 || (0x2000 <= n <= 0x200A)
    || n == 0x2028 || n == 0x2029 || n == 0x202F || n == 0x205F || n == 0x3000
  }

  predicate IsDigit(c: char)
  {
    '0' <= c <= '9'
  }

  predicate AllDigits(s: string)
  {
    forall i :: 0 <= i < |s| ==> IsDigit(s[i])
  }

  /** Every character of `s` is whitespace in the sense of `blank`. */
  predicate AllBlank(s: string, blank: char -> bool)
  {
    forall i :: 0 <= i < |s| ==> blank(s[i])
  }

  /** How many `blank` characters `s` starts with. */
  function LeadingBlanks(s: string, blank: char -> bool): (n: nat)
    ensures n <= |s|
    ensures forall i :: 0 <= i < n ==> blank(s[i])
    ensures n < |s| ==> !blank(s[n])
  {
    if |s| > 0 && blank(s[0]) then
      var n := 1 + LeadingBlanks(s[1..], blank);
      assert forall i :: 1 <= i < n ==> s[1..][i - 1] == s[i];
      n
    else 0
  }

  /** How many `blank` characters `s` ends with. */
  function TrailingBlanks(s: string, blank: char -> bool): (n: nat)
    ensures n <= |s|
    ensures forall i :: |s| - n <= i < |s| ==> blank(s[i])
    ensures n < |s| ==> !blank(s[|s| - n - 1])
  {
    if |s| > 0 && blank(s[|s| - 1]) then
      var n := 1 + TrailingBlanks(s[..|s| - 1], blank);
      assert forall i :: |s| - n <= i < |s| - 1 ==> s[..|s| - 1][i] == s[i];
      n
    else 0
  }

  /** Where the text left after trimming `blank` characters starts and ends
      within `s`; it is empty exactly when `s` is all `blank`. */
  function TrimBounds(s: string, blank: char -> bool): (ab: (nat, nat))
    ensures ab.0 <= ab.1 <= |s|
    ensures forall i :: 0 <= i < ab.0 ==> blank(s[i])
    ensures forall i :: ab.1 <= i < |s| ==> blank(s[i])
    ensures ab.0 < ab.1 ==> !blank(s[ab.0]) && !blank(s[ab.1 - 1])
    ensures ab.0 == ab.1 <==> AllBlank(s, blank)
  {
    var a := LeadingBlanks(s, blank);
    if a == |s| then (a, a) else (a, |s| - TrailingBlanks(s, blank))
  }

  /** `s` without its surrounding `blank` characters: the middle slice of `s`
      whose two sides are all `blank` and whose ends are not. */
  function Trim(s: string, blank: char -> bool): (r: string)
    ensures |r| <= |s|
    ensures |r| > 0 ==> !blank(r[0]) && !blank(r[|r| - 1])
    ensures AllBlank(s, blank) <==> r == ""
    ensures exists a, b :: 0 <= a <= b <= |s| && r == s[a..b] && AllBlank(s[..a], blank) && AllBlank(s[b..], blank)
  {
    var ab := TrimBounds(s, blank);
    assert AllBlank(s[..ab.0], blank) by {
      assert forall i :: 0 <= i < ab.0 ==> s[..ab.0][i] == s[i];
    }
    assert AllBlank(s[ab.1..], blank) by {
      assert forall i :: 0 <= i < |s| - ab.1 ==> s[ab.1..][i] == s[ab.1 + i];
    }
    s[ab.0..ab.1]
  }

  /** `s.strip()`. */
  function Strip(s: string): string
  {
    Trim(s, IsSpace)
  }

  /** Numeric value of a non-empty run of ASCII digits, read left to right. */
  function DigitsValue(s: string): (n: nat)
    requires AllDigits(s)
  {
    if |s| == 0 then 0
    else DigitsValue(s[..|s| - 1]) * 10 + (s[|s| - 1] as int - '0' as int)
  }

  /** The characters `int()` accepts once whitespace is stripped. */
  predicate IsSignOrDigit(c: char)
  {
    c == '+' || c == '-' || IsDigit(c)
  }

  /** `int(text)` in base 10: optional surrounding `int()` whitespace, an
      optional sign and one or more ASCII digits; `None` where Python raises
      `ValueError`. */
  function PyInt(text: string): (r: Option<int>)
    ensures r.Some? ==> |Trim(text, IsIntSpace)| > 0
    ensures r.Some? ==> forall i :: 0 <= i < |Trim(text, IsIntSpace)| ==> IsSignOrDigit(Trim(text, IsIntSpace)[i])
    ensures r.Some? && r.value < 0 ==> Trim(text, IsIntSpace)[0] == '-'
    ensures r.Some? ==> exists sign, digits ::
      && IsSign(sign) && |digits| > 0 && AllDigits(digits)
      && Trim(text, IsIntSpace) == sign + digits && r.value == SignedValue(sign, digits)
  {
    SignedDigits(Trim(text, IsIntSpace))
  }

  /** The signs `int()` accepts in front of its digits, none included. */
  predicate IsSign(sign: string)
  {
    sign == "" || sign == "+" || sign == "-"
  }

  /** The value of `digits` under `sign`. */
  function SignedValue(sign: string, digits: string): int
    requires AllDigits(digits)
  {
    var magnitude: int := DigitsValue(digits);
    if sign == "-" then -magnitude else magnitude
  }

  /** An optional sign followed by one or more digits, with nothing around. */
  function SignedDigits(t: string): (r: Option<int>)
    ensures r.Some? ==> exists sign, digits ::
      && IsSign(sign) && |digits| > 0 && AllDigits(digits)
      && t == sign + digits && r.value == SignedValue(sign, digits)
  {
    if |t| > 0 && (t[0] == '+' || t[0] == '-') then
      var d := t[1..];
      if |d| > 0 && AllDigits(d) then
        var magnitude: int := DigitsValue(d);
        assert t == t[..1] + d && IsSign(t[..1]);
        Some(if t[0] == '-' then -magnitude else magnitude)
      else None
    else if |t| > 0 && AllDigits(t) then
      assert t == "" + t;
      Some(DigitsValue(t))
    else None
  }

  function DigitChar(d: nat): char
    requires d < 10
  {
    ('0' as int + d) as char
  }

  /** `str(n)` for a natural number: its decimal digits, most significant
      first, without leading zeros. */
  function Digits(n: nat): (s: string)
    ensures |s| > 0 && AllDigits(s)
    ensures |s| > 1 ==> s[0] != '0'
  {
    if n < 10 then [DigitChar(n)] else Digits(n / 10) + [DigitChar(n % 10)]
  }

  /** `str(i)` for a Python `int`. */
  function DecimalText(i: int): (s: string)
    ensures |s| > 0
  {
    if i < 0 then "-" + Digits(-i) else Digits(i)
  }

  /** `s.split("/")[0]`: what precedes the first `/`, or all of `s`. */
  function BeforeSlash(s: string): (r: string)
    ensures '/' !in r
    ensures |r| <= |s| && r == s[..|r|]
    ensures |r| < |s| ==> s[|r|] == '/'
    ensures '/' in s ==> |r| < |s|
  {
    if |s| == 0 || s[0] == '/' then [] else [s[0]] + BeforeSlash(s[1..])
  }

  /** The conversion at app.py:307 applied to the rendered score. */
  function IntOfScoreText(s: string): Option<int>
  {
    if '/' in s then PyInt(Strip(BeforeSlash(s))) else PyInt(s)
  }

  /** `int(str(v))` after the `/` cut, for a decoded score value. `str()` of
      a float always contains `.`, `e`, `inf` or `nan`, and `str()` of a list
      or dict starts with `[` or `{`, so `int()` rejects them whatever
      precedes a `/`; they are not rendered. */
  function ScoreValue(v: Json): Option<int>
  {
    match v
    case JStr(s) => IntOfScoreText(s)
    case JInt(i) => IntOfScoreText(DecimalText(i))
    case JBool(b) => IntOfScoreText(if b then "True" else "False")
    case JNull => IntOfScoreText("None")
    case JFloat(_) => None
    case JArr(_) => None
    case JObj(_) => None
  }

  /** `score.get("overall_engineering_score", "0")` followed by the
      conversion; `None` both for `ValueError` and for the `AttributeError`
      a score that is not a dict raises. */
  function ReadScore(score: Json): Option<int>
  {
    match score
    case JObj(fields) => ScoreValue(if ScoreKey in fields then fields[ScoreKey] else JStr("0"))
    case _ => None
  }

  /** Whether the regeneration call at app.py:310 is issued for the score
      extracted at app.py:299. */
  predicate ShouldRegenerate(score: Option<Json>)
  {
    Present(score) && ReadScore(score.value).Some? && ReadScore(score.value).value < Threshold
  }

  /** Reading the digits of `n` back yields `n`. */
  lemma {:induction false} DigitsRoundTrip(n: nat)
    ensures DigitsValue(Digits(n)) == n
  {
    if n >= 10 {
      DigitsRoundTrip(n / 10);
      var s := Digits(n);
      assert s[..|s| - 1] == Digits(n / 10);
    }
  }

  /** Text with no `blank` character at either end is its own trim. */
  lemma TrimUnpadded(s: string, blank: char -> bool)
    requires |s| > 0 && !blank(s[0]) && !blank(s[|s| - 1])
    ensures Trim(s, blank) == s
  {
  }

  /** Trimming removes exactly the surrounding `blank` characters. */
  lemma TrimPadded(lead: string, t: string, trail: string, blank: char -> bool)
    requires AllBlank(lead, blank) && AllBlank(trail, blank)
    requires |t| > 0 && !blank(t[0]) && !blank(t[|t| - 1])
    ensures Trim(lead + t + trail, blank) == t
  {
    var s := lead + t + trail;
    var (a, b) := TrimBounds(s, blank);
    assert s[|lead|] == t[0];
    assert s[|lead| + |t| - 1] == t[|t| - 1];
    assert forall i :: 0 <= i < |lead| ==> s[i] == lead[i];
    assert forall i :: |lead| + |t| <= i < |s| ==> s[i] == trail[i - |lead| - |t|];
    assert a == |lead|;
    assert b == |lead| + |t|;
    assert s[a..b] == t;
  }

  /** `str(i)` holds only a sign and digits, and neither starts nor ends
      with whitespace. */
  lemma DecimalTextShape(i: int)
    ensures forall k :: 0 <= k < |DecimalText(i)| ==> IsSignOrDigit(DecimalText(i)[k])
    ensures !IsSpace(DecimalText(i)[0]) && !IsSpace(DecimalText(i)[|DecimalText(i)| - 1])
  {
    var t := DecimalText(i);
    if i < 0 {
      var d := Digits(-i);
      assert forall k :: 1 <= k < |t| ==> t[k] == d[k - 1];
    }
  }

  /** The decimal rendering of an integer reads back without padding. */
  lemma DecimalTextReadsBack(i: int)
    ensures SignedDigits(DecimalText(i)) == Some(i)
  {
    var t := DecimalText(i);
    if i < 0 {
      DigitsRoundTrip(-i);
      assert t[1..] == Digits(-i);
    } else {
      DigitsRoundTrip(i);
    }
  }

  /** `int(str(i)) == i` without padding. */
  lemma DecimalTextReads(i: int)
    ensures PyInt(DecimalText(i)) == Some(i)
  {
    DecimalTextShape(i);
    TrimUnpadded(DecimalText(i), IsIntSpace);
    DecimalTextReadsBack(i);
  }

  /** `int(str(i)) == i`: the decimal rendering of an integer reads back,
      surrounded by any whitespace `int()` skips. */
  lemma DecimalTextRoundTrip(i: int, lead: string, trail: string)
    requires AllBlank(lead, IsIntSpace) && AllBlank(trail, IsIntSpace)
    ensures PyInt(lead + DecimalText(i) + trail) == Some(i)
  {
    DecimalTextShape(i);
    TrimPadded(lead, DecimalText(i), trail, IsIntSpace);
    DecimalTextReadsBack(i);
  }

  /** A sign and digits are read as their value. */
  lemma SignedDigitsReads(sign: string, digits: string)
    requires IsSign(sign) && |digits| > 0 && AllDigits(digits)
    ensures SignedDigits(sign + digits) == Some(SignedValue(sign, digits))
  {
    var t := sign + digits;
    if sign == "" {
      assert t == digits;
    } else {
      assert t[1..] == digits;
    }
  }

  /** `int()` reads an optionally signed run of digits, surrounded by any
      whitespace it skips, as its value: with the soundness clause of
      `PyInt`, a conversion succeeds exactly on such text. */
  lemma PyIntReadsSignedDigits(lead: string, sign: string, digits: string, trail: string)
    requires AllBlank(lead, IsIntSpace) && AllBlank(trail, IsIntSpace)
    requires IsSign(sign) && |digits| > 0 && AllDigits(digits)
    ensures PyInt(lead + sign + digits + trail) == Some(SignedValue(sign, digits))
  {
    var t := sign + digits;
    assert t[|t| - 1] == digits[|digits| - 1];
    assert t[0] == if sign == "" then digits[0] else sign[0];
    assert lead + sign + digits + trail == lead + t + trail;
    TrimPadded(lead, t, trail, IsIntSpace);
    SignedDigitsReads(sign, digits);
  }

  /** A score written as a padded, optionally signed run of digits reads as
      its value (app.py:306-307). */
  lemma SignedScoreReads(lead: string, sign: string, digits: string, trail: string)
    requires AllBlank(lead, IsIntSpace) && AllBlank(trail, IsIntSpace)
    requires IsSign(sign) && |digits| > 0 && AllDigits(digits)
    ensures ScoreValue(JStr(lead + sign + digits + trail)) == Some(SignedValue(sign, digits))
  {
    var text := lead + sign + digits + trail;
    assert '/' !in text by {
      forall k | 0 <= k < |text|
        ensures text[k] != '/'
      {
        if k < |lead| {
          assert text[k] == lead[k];
        } else if k < |lead| + |sign| {
          assert text[k] == sign[k - |lead|];
        } else if k < |lead| + |sign| + |digits| {
          assert text[k] == digits[k - |lead| - |sign|];
        } else {
          assert text[k] == trail[k - |lead| - |sign| - |digits|];
        }
      }
    }
    PyIntReadsSignedDigits(lead, sign, digits, trail);
  }

  /** Text holding a character that is neither `int()` whitespace, a sign
      nor a digit (a `.`, a letter, a separator 0x1C to 0x1F, ...) is
      rejected by `int()`. */
  lemma PyIntRejectsForeignChar(text: string, k: int)
    requires 0 <= k < |text| && !IsIntSpace(text[k]) && !IsSignOrDigit(text[k])
    ensures PyInt(text) == None
  {
    var (a, b) := TrimBounds(text, IsIntSpace);
    assert Trim(text, IsIntSpace)[k - a] == text[k];
  }

  /** `str.strip()` removes the separators 0x1C to 0x1F but `int()` does
      not skip them: a score padded with one fails to read on its own, and
      reads once a `/` makes app.py:307 strip it first. */
  lemma SeparatorPaddingRejected(sep: char, i: int)
    requires 28 <= sep as int <= 31
    ensures PyInt([sep] + DecimalText(i)) == None
    ensures IntOfScoreText([sep] + DecimalText(i)) == None
    ensures IntOfScoreText([sep] + DecimalText(i) + "/") == Some(i)
  {
    var t := [sep] + DecimalText(i);
    PyIntRejectsForeignChar(t, 0);
    PaddedDecimalHasNoSlash(i, [sep], "");
    assert t + "" == t;
    FractionScoreReadsNumerator(i, [sep], "", "");
    assert t + "" + "/" + "" == t + "/";
  }

  /** `s.split("/")[0]` is exactly the text before the first `/`. */
  lemma {:induction false} BeforeSlashCut(head: string, tail: string)
    requires '/' !in head
    ensures BeforeSlash(head + "/" + tail) == head
  {
    if |head| > 0 {
      assert (head + "/" + tail)[1..] == head[1..] + "/" + tail;
      BeforeSlashCut(head[1..], tail);
    }
  }

  /** An integer score reads back as itself (app.py:306-307). */
  lemma IntegerScoreReadsBack(i: int)
    ensures ScoreValue(JInt(i)) == Some(i)
  {
    DecimalTextShape(i);
    assert '/' !in DecimalText(i);
    DecimalTextReads(i);
  }

  /** A score text with a `/` is read from what precedes the first one. */
  lemma SlashCutReadsHead(head: string, rest: string)
    requires '/' !in head
    ensures IntOfScoreText(head + "/" + rest) == PyInt(Strip(head))
  {
    var text := head + "/" + rest;
    assert text[|head|] == '/';
    BeforeSlashCut(head, rest);
  }

  /** Surrounding `str(i)` with whitespace introduces no `/`. */
  lemma PaddedDecimalHasNoSlash(i: int, lead: string, trail: string)
    requires AllBlank(lead, IsSpace) && AllBlank(trail, IsSpace)
    ensures '/' !in lead + DecimalText(i) + trail
  {
    var t := DecimalText(i);
    var head := lead + t + trail;
    DecimalTextShape(i);
    assert forall k :: 0 <= k < |lead| ==> head[k] == lead[k];
    assert forall k :: |lead| <= k < |lead| + |t| ==> head[k] == t[k - |lead|];
    assert forall k :: |lead| + |t| <= k < |head| ==> head[k] == trail[k - |lead| - |t|];
  }

  /** A score written `n/m` reads as `n`, whatever follows the slash and
      whatever `str.strip()` whitespace pads `n` (app.py:307). */
  lemma FractionScoreReadsNumerator(i: int, lead: string, trail: string, rest: string)
    requires AllBlank(lead, IsSpace) && AllBlank(trail, IsSpace)
    ensures ScoreValue(JStr(lead + DecimalText(i) + trail + "/" + rest)) == Some(i)
  {
    var t := DecimalText(i);
    var head := lead + t + trail;
    PaddedDecimalHasNoSlash(i, lead, trail);
    SlashCutReadsHead(head, rest);
    assert ScoreValue(JStr(head + "/" + rest)) == PyInt(Strip(head));
    DecimalTextShape(i);
    TrimPadded(lead, t, trail, IsSpace);
    DecimalTextReads(i);
  }

  /** `str(None)`, `str(True)` and `str(False)` are not integers, so a
      null or boolean score never triggers regeneration. */
  lemma NullAndBooleanScoresFail(b: bool)
    ensures ScoreValue(JNull) == None
    ensures ScoreValue(JBool(b)) == None
  {
    var none, yes, no := "None", "True", "False";
    assert '/' !in none by { assert forall i :: 0 <= i < |none| ==> none[i] != '/'; }
    assert '/' !in yes by { assert forall i :: 0 <= i < |yes| ==> yes[i] != '/'; }
    assert '/' !in no by { assert forall i :: 0 <= i < |no| ==> no[i] != '/'; }
    WordScoreFails(none);
    WordScoreFails(yes);
    WordScoreFails(no);
  }

  /** A score text without `/` that starts with a letter does not read. */
  lemma WordScoreFails(w: string)
    requires |w| > 0 && 'A' <= w[0] <= 'Z' && '/' !in w
    ensures IntOfScoreText(w) == None
  {
    PyIntRejectsForeignChar(w, 0);
  }

  /** An absent score member reads as the default `"0"`. */
  lemma AbsentScoreIsZero(fields: map<string, Json>)
    requires ScoreKey !in fields
    ensures ReadScore(JObj(fields)) == Some(0)
  {
    var zero := "0";
    assert ReadScore(JObj(fields)) == ScoreValue(JStr(zero));
    assert '/' !in zero;
    assert IntOfScoreText(zero) == PyInt(zero);
    ZeroReads();
  }

  /** `int("0") == 0`. */
  lemma ZeroReads()
    ensures PyInt("0") == Some(0)
  {
    var zero := "0";
    assert AllDigits(zero) && DigitsValue(zero) == 0;
    PyIntReadsSignedDigits("", "", zero, "");
    assert "" + "" + zero + "" == zero;
  }

  /** The score lookup (app.py:306): a dict is read at the score member,
      defaulting to 0 when the member is absent; anything else has no `get`
      and reads as nothing. */
  lemma ReadScoreLooksUpMember(score: Json)
    ensures !score.JObj? ==> ReadScore(score) == None
    ensures score.JObj? && ScoreKey in score.fields ==> ReadScore(score) == ScoreValue(score.fields[ScoreKey])
    ensures score.JObj? && ScoreKey !in score.fields ==> ReadScore(score) == Some(0)
  {
    if score.JObj? && ScoreKey !in score.fields {
      AbsentScoreIsZero(score.fields);
    }
  }

  /** Only strings and integers can read as a score: an integer reads as
      itself, a string through the conversion of app.py:307, and `null`,
      booleans, floats, lists and dicts never read. */
  lemma ScoreValueCases(v: Json)
    ensures v.JStr? ==> ScoreValue(v) == IntOfScoreText(v.s)
    ensures v.JInt? ==> ScoreValue(v) == Some(v.i)
    ensures !v.JStr? && !v.JInt? ==> ScoreValue(v) == None
  {
    match v
    case JInt(i) => IntegerScoreReadsBack(i);
    case JBool(b) => NullAndBooleanScoresFail(b);
    case JNull => NullAndBooleanScoresFail(false);
    case _ =>
  }

  /** A text is its part before a `/`, the `/`, and the part after it. */
  lemma SplitAtSlash(s: string, head: string, rest: string)
    requires |head| < |s| && head == s[..|head|] && s[|head|] == '/' && rest == s[|head| + 1..]
    ensures s == head + "/" + rest
  {
    assert s == s[..|head|] + [s[|head|]] + s[|head| + 1..];
  }

  /** The conversion of app.py:307: a text without `/` is converted whole,
      and a text with one is converted from the stripped part before its
      first `/`. */
  lemma ScoreTextRead(s: string)
    ensures '/' !in s ==> IntOfScoreText(s) == PyInt(s)
    ensures '/' in s ==>
      exists head, rest :: '/' !in head && s == head + "/" + rest && IntOfScoreText(s) == PyInt(Strip(head))
  {
    if '/' in s {
      var head := BeforeSlash(s);
      var rest := s[|head| + 1..];
      SplitAtSlash(s, head, rest);
      SlashCutReadsHead(head, rest);
      assert '/' !in head && s == head + "/" + rest && IntOfScoreText(s) == PyInt(Strip(head));
    }
  }

  /** The regeneration decision: it is taken exactly for a non-empty score
      dict whose score reads as an integer below 6; an empty dict, a
      non-dict, or an unreadable score never triggers it. */
  lemma RegenerationDecision(score: Option<Json>)
    ensures ShouldRegenerate(score) <==>
      && score.Some? && score.value.JObj? && |score.value.fields| > 0
      && ReadScore(score.value).Some? && ReadScore(score.value).value < Threshold
  {
  }

  /** A non-empty score dict without `overall_engineering_score` triggers
      regeneration, because the default `"0"` is below the threshold. */
  lemma AbsentScoreRegenerates(fields: map<string, Json>)
    requires ScoreKey !in fields && |fields| > 0
    ensures ShouldRegenerate(Some(JObj(fields)))
  {
    AbsentScoreIsZero(fields);
  }
}
