# Multi-pass plan optimizer, modelled in Dafny

The optimizer (`app.py`) asks a language model for an engineering plan as JSON. It then runs these passes:
- recover the JSON from the reply;
- repair the reply once if nothing could be recovered;
- check the plan against a fixed schema and repair it once if it fails;
- have the model critique it and score it;
- regenerate it once if the score is below 6;
- stamp the answer with a `meta` member.

This project models the four pieces of logic in that flow as pure Dafny definitions and proves what they do:

- `json.dfy`, module `JsonModel`: decoded JSON values and Python's truthiness rule for them.
- `extraction.dfy`, module `Extraction`: the two-tier extractor `extract_json`. It parses the whole text. Failing that, it parses the window that the regular expression `\{[\s\S]*\}` selects, from the first `{` to the last `}` after it. Failing that, it gives up. `json.loads` is a parameter, a partial function from text to JSON.
- `schema.dfy`, module `Schema`: a small interpreter for the subset of JSON Schema (draft 2020-12) that `SCHEMA` uses. That subset is:
  - `type` with "object", "array" and "string" (section 6.1.1 of JSON Schema Validation);
  - `required` (section 6.5.3 of JSON Schema Validation);
  - `properties` (section 10.3.2.1 of JSON Schema Core).

  The module also writes out `SCHEMA` itself and gives an independent, hand-written description of a well-formed plan. The interpreter is proved to agree with that description.
- `score.dfy`, module `ScoreParsing`: the regeneration decision. It reads `overall_engineering_score` (default `"0"`), renders it with `str()`, keeps what precedes the first `/`, converts it with `int()`, and compares the result with 6. `str.strip()`, `int()` and `str()` on integers are written out.
- `pipeline.dfy`, module `Pipeline`: the call sequence and error logic of `optimize_workflow`.
  - The model gateway (`call_groq` and the three passes built on it) is a scripted sequence of responses. A response is either the message content or one of two kinds of failure.
  - A run records every call it made, with the document handed over, and ends in one of three outcomes: the stamped plan, the "Failed to produce valid JSON" error carrying the raw output, or the generic error.
  - The pure steps applied to each reply are parameters (a `Steps` value), so the pipeline properties hold for any extractor, validator and decision. `EndpointSteps` is the endpoint's own instance.
- `examples.dfy`, module `TestCases`: the cases of `tests/test_validation.py` and three end-to-end runs, as lemmas. The behaviour of `json.loads` on each concrete string is a precondition.

Where the code and the intended design differ, the model follows the code:
- There are no configurable retry ceilings and no run trace. There is one extraction repair, one schema repair and one regeneration. The list of calls in a run stands in for the trace.
- A non-empty score document without the score member reads as `"0"` and so triggers regeneration. An empty score document is falsy and never triggers it, and neither does an unreadable score.
- A failed critique or score call ends the run in the generic error; it is not treated as absent.
- The output of the schema repair is passed on without being validated again. When it does not extract, the critique call is still made, with `null`, before the run fails.
- A body that is not JSON is swallowed only when it comes from the regeneration call or the re-score call. That is the `ValueError` raised by `response.json()`, or by a request that `requests` rejects as malformed. It is caught by `except (ValueError, AttributeError)`. Everywhere else it ends in the generic error.

## Model

| member | source | states |
|---|---|---|
| JsonModel.FalsyValues | app.py:304 | `Truthy`, the `if` test on a decoded value: false exactly for `None`, `False`, `0`, `0.0`, `""`, `[]` and `{}` |
| JsonModel.AbsentOrFalsy | app.py:278-282 | `Present`, the `if not parsed_json` test on an extraction: it fails exactly for a missing extraction or one of those seven values |
| JsonModel.OrNull | app.py:296-300 | a stored extraction is the value itself, or `null` when it failed, and it is truthy exactly when the extraction is present and truthy |
| Extraction.FirstFrom | app.py:94 | the position found holds the character and no earlier position from the start does; none found means the character does not occur |
| Extraction.LastBefore | app.py:94 | the position found holds the character and no later position before the bound does; none found means it does not occur |
| Extraction.BraceSpan | app.py:94-95 | the span chosen is the leftmost-longest match of `\{[\s\S]*\}`, and there is none exactly when no `{` has a `}` after it |
| Extraction.BraceWindow | app.py:94-97 | the window is the text of that leftmost-longest match, and it is absent exactly when no match exists |
| Extraction.ExtractJson | app.py:90-100 | a text that parses yields its parse; otherwise any result is the parse of the regular-expression match |
| Extraction.SearchResultUnique | app.py:94 | the regular-expression search has at most one result |
| Extraction.DirectParseWins | app.py:91-92 | when the whole text parses, the result is that parse, and it does not depend on how the parser treats any other string |
| Extraction.FallbackParsesSearchWindow | app.py:93-99 | when the whole text does not parse, the result is exactly the parse of the match, a failed parse giving none |
| Extraction.NoWindowMeansNone | app.py:93-100 | a text that does not parse and has no `}` after a `{` yields none |
| Extraction.ProseWrappedPayload | app.py:93-97 | a braced payload between prose with no `{` before it and no `}` after it is recovered exactly |
| Schema.ValidIff | app.py:289 | `Errors`, what `validate` reports: a value passes a schema exactly when it has the schema's type, holds every required name when it is an object, and every listed member present is valid against its own schema |
| Schema.PropertyErrorsEmpty | app.py:22-48 | `PropertyErrors`, the errors of the `properties` keyword: none exactly when every listed member is absent or valid against its own schema |
| Schema.RequiredErrorsEmpty | app.py:50-63 | `RequiredErrors`, the errors of the `required` keyword: none exactly when every required name is present |
| Schema.SchemasListWhatTheyRequire | app.py:20-64 | `PlanSchema` and `PromptStrategySchema`: each lists under `properties` exactly the names it requires, twelve and four, in the same order |
| Schema.KindOnlyValid | app.py:23-27 | a type-only schema accepts exactly the values of its type |
| Schema.PromptStrategyIff | app.py:28-42 | `PromptStrategySchema` accepts exactly objects with the four members of the declared types |
| Schema.PlanRequiredMet | app.py:50-63 | the `required` list of `SCHEMA` is met exactly when all twelve names are present |
| Schema.PlanSchemaMeansPlanDocument | app.py:20-64 | `IsValid(PlanSchema, _)`, `validate` with `SCHEMA`, passes exactly on objects holding the twelve members with their declared types, `ai_prompt_strategy` holding its four |
| Schema.PlanHasDeclaredShapes | app.py:237-255 | `IsPlanDocument`, the plan shape the system prompt asks for, gives every member of `SCHEMA` the type it declares |
| Schema.PlanMemberIff | app.py:22-48 | a member of `SCHEMA` raises no error exactly when it is absent or of its declared type, `ai_prompt_strategy` of the nested shape |
| Schema.PlanMembersIff | app.py:22-48 | the `properties` of `SCHEMA` raise no error exactly when every member is absent or of its declared shape |
| Schema.DeclaredShapesMakePlan | app.py:20-64 | an object holding all twelve members, each of its declared shape, is a well-formed plan |
| Schema.PlanDocumentIsValid | app.py:20-64 | every well-formed plan passes the schema |
| Schema.ValidIsPlanDocument | app.py:20-64 | everything the schema passes is a well-formed plan |
| Schema.MissingRequiredReported | app.py:50-63 | a required name missing from an object is reported as missing at that object's path |
| Schema.WrongKindReported | app.py:22-48 | a listed member of the wrong type is reported at its own path with the expected type |
| Schema.PlanMissingMemberReported | app.py:50-63 | dropping any of the twelve required members is reported by name and makes the plan invalid |
| Schema.PlanWrongKindReported | app.py:22-48 | any top-level member of the wrong type is reported at its name and makes the plan invalid |
| Schema.NonObjectRejected | app.py:21 | a document that is not an object yields the single top-level type error |
| Schema.UnlistedKeyIgnored | app.py:22-63 | adding or changing a member that is neither listed nor required leaves the errors unchanged |
| ScoreParsing.Trim | app.py:307 | `Strip` (`str.strip()`, whose whitespace is the ASCII set including 0x1C to 0x1F and the non-ASCII whitespace such as U+00A0 and U+3000) and the padding `int()` skips: the result is a middle slice of the text whose two sides are all whitespace and whose ends are not, and it is empty exactly when the text is all whitespace |
| ScoreParsing.TrimPadded | app.py:307 | stripping removes exactly the surrounding whitespace, for either whitespace set |
| ScoreParsing.PyInt | app.py:307 | a successful conversion read text that, once the whitespace `int()` skips is removed, is exactly an optional `+` or `-` followed by one or more digits, and the result is the value of those digits under that sign; `PyIntReadsSignedDigits` gives the converse |
| ScoreParsing.PyIntReadsSignedDigits | app.py:307 | every optionally signed run of digits, padded with any whitespace `int()` skips, converts to its value, so `int()` succeeds exactly on such text |
| ScoreParsing.SignedDigitsReads | app.py:307 | `SignedDigits`: a sign and digits with nothing around read as their value |
| ScoreParsing.SignedScoreReads | app.py:306-307 | a score string that is a padded, optionally signed run of digits reads as its value |
| ScoreParsing.BeforeSlash | app.py:307 | the cut is the prefix before the first `/` and holds no `/` |
| ScoreParsing.BeforeSlashCut | app.py:307 | cutting `head/tail` with no `/` in `head` gives `head` |
| ScoreParsing.Digits | app.py:306 | `str()` of a natural number is a non-empty run of digits without a leading zero |
| ScoreParsing.DecimalTextShape | app.py:306 | `DecimalText`, `str()` of an integer: only a sign and digits, with no whitespace at either end |
| ScoreParsing.DecimalTextReadsBack | app.py:306-307 | `SignedDigits`, the core of `int()`, reads `str(i)` back as `i` |
| ScoreParsing.DigitsRoundTrip | app.py:306-307 | reading back the decimal digits of a natural number gives that number |
| ScoreParsing.DecimalTextRoundTrip | app.py:306-307 | `int(str(i))` is `i`, with any whitespace `int()` skips around the rendering |
| ScoreParsing.PyIntRejectsForeignChar | app.py:307 | text holding a character that is neither whitespace `int()` skips, a sign nor a digit fails to convert; the separators 0x1C to 0x1F are such characters |
| ScoreParsing.SeparatorPaddingRejected | app.py:306-307 | a score padded with one of the separators 0x1C to 0x1F does not read, but reads once a `/` follows it, because `str.strip()` removes the separator and `int()` does not skip it |
| ScoreParsing.IntegerScoreReadsBack | app.py:306-307 | an integer score reads as itself |
| ScoreParsing.SlashCutReadsHead | app.py:307 | a score text with a `/` reads as the stripped part before the first `/` |
| ScoreParsing.FractionScoreReadsNumerator | app.py:306-307 | a score written `n/m`, with any padding around `n`, reads as `n` whatever follows the slash |
| ScoreParsing.NullAndBooleanScoresFail | app.py:306-307 | null and boolean scores fail to convert |
| ScoreParsing.AbsentScoreIsZero | app.py:306 | a score document without the score member reads as 0 |
| ScoreParsing.ScoreTextRead | app.py:307 | `IntOfScoreText`: a text without `/` is converted whole, and one with a `/` from the stripped part before its first `/` |
| ScoreParsing.ScoreValueCases | app.py:306-307 | `ScoreValue`: an integer reads as itself, a string through the `/` cut and `int()`, and null, booleans, floats, lists and dicts never read |
| ScoreParsing.ReadScoreLooksUpMember | app.py:306 | `ReadScore`: a dict is read at `overall_engineering_score`, 0 when the member is absent, and anything else reads as nothing |
| ScoreParsing.RegenerationDecision | app.py:304-309 | `ShouldRegenerate`: regeneration is decided exactly for a non-empty score dict whose score converts to an integer below 6 |
| ScoreParsing.AbsentScoreRegenerates | app.py:304-309 | a non-empty score dict without the score member triggers regeneration |
| Pipeline.Optimize | app.py:273-286 | every run makes between one and seven calls and starts with the generation call |
| Pipeline.AfterExtraction | app.py:288-292 | after extraction, the run makes at most five more calls and never ends in the raw-output error, and a success is stamped |
| Pipeline.Review | app.py:294-300 | the critique call of the plan comes first and the stage makes at most four calls, a success makes at least the score call too, and the later calls are score calls or the regeneration |
| Pipeline.Improve | app.py:302-309 | at most the regeneration and the re-score follow the score call, and a success is stamped |
| Pipeline.Regenerate | app.py:310-325 | the regeneration is fed the reviewed plan, at most the re-score follows it, and a success is stamped |
| Pipeline.StampsDifferOnlyInFlag | app.py:328-334 | `Meta`: both stamps hold the same five members and differ only in `auto_regeneration_applied` |
| Pipeline.Finish | app.py:327-336 | the stamp succeeds exactly on an object; the stamped document has the original keys plus `meta`, `meta` holds the stamp for the regeneration flag, and every other member is unchanged |
| Pipeline.FailuresEndRun | app.py:81-85 | a failed call is the run's last; it ends in the generic error unless it is a body that is not JSON from the regeneration or the re-score |
| Pipeline.InvalidJsonExit | app.py:277-286 | the raw-output error comes exactly when both the generation and its repair extract to nothing truthy, after exactly those two calls, carrying the original output |
| Pipeline.SuccessStaysInScript | app.py:81-82 | `Respond`: a call past the end of the script fails like an unreachable gateway, so a successful run makes no more calls than the script answers |
| Pipeline.SuccessShape | app.py:273-336 | a successful run makes between three and seven calls and carries a `meta` stamp |
| Pipeline.ReviewSplit | app.py:273-294 | the calls before the critique are the generation and at most two repairs of the original output, and the rest of the run is the review of the plan handed to the critique |
| Pipeline.RawRepairsSeeOriginalOutput | app.py:277-292 | both repairs of raw output are the second or third call and are fed the original generation output |
| Pipeline.FirstPlanGate | app.py:288-295 | a valid first plan goes straight to the critique; an invalid one is repaired from the raw output and the repair's extraction is critiqued without re-validation |
| Pipeline.RepairedPlanGate | app.py:278-295 | a plan recovered by the extraction repair goes through the same gate one call later |
| Pipeline.CritiqueThenScore | app.py:295-299 | a plan that is not an object fails right after its critique call; otherwise the score call is fed the plan with the critique stored, `null` when it did not extract |
| Pipeline.ReviewRegenerationIff | app.py:299-316 | within the review stage of an object plan, the score call is the second call and the regeneration follows it exactly when the decision says so |
| Pipeline.RegenerationIffLowScore | app.py:299-316 | the regeneration call follows the score call exactly when the decision says so, and it is fed the plan with the score stored |
| Pipeline.AtMostOneRegeneration | app.py:310 | a run makes at most one regeneration call |
| Pipeline.RegenerationOutcome | app.py:310-336 | after a regeneration, a success answers the truthy regenerated plan flagged true: re-scored when the re-score answered, and without a new review when the re-score body was not JSON; when the regeneration yields nothing truthy, it answers the plan as handed over, flagged false |
| Pipeline.NoRegenerationKeepsPlan | app.py:296-336 | without regeneration, a success answers the critiqued plan with exactly the critique, the score and a false-flagged stamp added |
| Pipeline.EndpointStepsAgree | app.py:289 | `EndpointSteps`: its extractor is `extract_json`, its validator accepts exactly well-formed plans, and its decision is the score-based one |
| TestCases.WholeJsonExtracted | tests/test_validation.py:8-47 | a whole JSON text is returned as parsed, including a multi-line object, nested objects and arrays |
| TestCases.SurroundedJsonExtracted | tests/test_validation.py:13-16 | the object inside surrounding prose is recovered |
| TestCases.NoObjectExtractsNothing | tests/test_validation.py:27-35 | text with no object, and an unclosed object, yield none |
| TestCases.CompletePlanValid | tests/test_validation.py:53-79 | the complete test plan passes the schema |
| TestCases.MissingFieldsInvalid | tests/test_validation.py:81-92 | a plan holding only `project_specification` is reported as missing `folder_structure` and is invalid |
| TestCases.StringEnvironmentVariablesInvalid | tests/test_validation.py:94-120 | `environment_variables` given as a string is reported as a type error at its name and the plan is invalid |
| TestCases.ProseWrappedPlanValid | tests/test_validation.py:126-158 | the plan wrapped in prose is recovered and passes the schema |
| TestCases.FractionScoreExample | app.py:307 | `"8/10"` reads as 8 |
| TestCases.PaddedScoreExample | app.py:307 | `" 5 "` reads as 5 |
| TestCases.IntegerAndAbsentScoreExamples | app.py:306-307 | the integer 4 reads as 4, and a score document without the score member reads as 0 |
| TestCases.UnreadableScores | app.py:306-307 | `"1-10"`, `"7.5"`, `"/10"`, null and a non-dict score fail to read |
| TestCases.LowScoreRegenerates | app.py:304-309 | a score of `"4/10"` triggers regeneration |
| TestCases.HighOrUnreadableScoreKeeps | app.py:304-309 | scores of `"8/10"` and `"7.5"` do not trigger regeneration |
| TestCases.SignedAndZeroPaddedScores | app.py:306-307 | `"+5"` and `"05"` read as 5 and `"-3"` as -3 |
| TestCases.SeparatorPaddedScoreKeeps | app.py:304-309 | a score of `"\x1c5"` does not read and does not trigger regeneration, while `"\x1c5/10"` reads as 5 |
| TestCases.KeptPlanRun | app.py:273-336 | a valid plan whose score keeps it is answered after three calls with the critique, the score and a false flag added |
| TestCases.HappyPathScenario | app.py:273-336 | with the endpoint's own steps, a well-formed plan scored `"8/10"` is answered after three calls |
| TestCases.GarbageScenario | app.py:273-286 | two replies without a JSON object end in the raw-output error after two calls |
| TestCases.RegeneratedRun | app.py:273-336 | a valid plan whose score asks for regeneration is replaced by the regenerated plan, re-scored and flagged true, after five calls |
| TestCases.LowScoreScenario | app.py:273-336 | with the endpoint's own steps, a well-formed plan scored `"4/10"` is regenerated, re-scored and flagged true after five calls |

## Left out

- Flask routing, `render_template`, `jsonify` and HTTP status codes (app.py:5, 11, 206-213, 336-343) are I/O. The outcome is the `Outcome` datatype.
- `request.json` and the `.get` of the four inputs (app.py:213-218) are left out. A body that is not a dict fails before any gateway call. The inputs only feed prompt text, which is not modelled.
- The internals of `call_groq` (app.py:69-85) are not modelled: the network request, headers, the 20-second timeout, `raise_for_status` and navigating the reply. A call's result is a scripted response.
  - Every `ValueError` out of `call_groq` is one kind of failure: a reply body that is not JSON, or a request that `requests` rejects as malformed. Every other exception is the other kind.
  - Content that is not a string is folded into the second kind, because it makes the extraction raise outside any handler.
  - A script that runs out behaves like an unreachable gateway.
- Environment variables and `dotenv` (app.py:9, 13) are process configuration and are not modelled.
- The wording of every prompt (app.py:106-130, 144-165, 178-194, 220-266) is opaque text. The model records which document each call was handed, not the prompt.
- `json.loads` is a parameter. Its behaviour on the test strings is a precondition of each example. `json.dumps` of the plan fed to the regeneration is represented by the plan itself.
- `jsonschema` beyond `type`, `properties` and `required` is not modelled, because `SCHEMA` uses nothing else. Violations are listed in keyword order, which is not necessarily the library's order.
- The temperatures 0.3 and 0.2 (app.py:69, 137, 171, 201, 330) are constants only. `meta` carries 0.3 as a real number.
- ScoreParsing.PyInt: does not accept underscores between digits or non-ASCII digits, and ignores the digit-count limit of `int()`, because only scores written with ASCII digits are modelled.
- ScoreParsing.ScoreValue: `str()` of a float, list or dict is not rendered. The score is treated as unreadable directly. Each such rendering holds a `.`, a letter or a leading bracket, which `int()` rejects.
- The order of members in the answer (dict insertion order) is not modelled. Objects are maps.
- JsonModel.Json: a float is a real number, so the NaN and infinities that `json.loads` yields for `NaN`, `Infinity` or `1e400` are not represented. No decision changes: such a value is truthy like any non-zero number, and `str()` of any float fails `int()`.
- Pipeline.Outcome: the generic error drops the message `str(e)` of app.py:339, because the text of a Python exception is not modelled.
- Pipeline.Optimize: the properties are proved for any `Steps`. `EndpointStepsAgree` and the end-to-end examples connect them to the endpoint's own extractor, schema check and decision.
