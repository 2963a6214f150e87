/** Worked cases from the repository's tests (tests/test_validation.py) and
    from the score and pipeline behaviour of app.py. `json.loads` stays a
    parameter: each case states, as a precondition, what it returns on the
    strings involved. */
module TestCases {
  import opened JsonModel
  import opened Extraction
  import opened Schema
  import opened ScoreParsing
  import opened Pipeline

  /** `c` occurs in neither part, so not in their concatenation. */
  lemma NotInConcat(c: char, a: string, b: string)
    requires c !in a && c !in b
    ensures c !in a + b
  {
    assert forall i :: 0 <= i < |a + b| ==> (a + b)[i] == if i < |a| then a[i] else b[i - |a|];
  }

  /** The test value `{"test": "value"}`. */
  function TestObject(): Json
  {
    JObj(map["test" := JStr("value")])
  }

  // ---------- extraction (tests/test_validation.py:8-47) ----------

  /** The multi-line object of tests/test_validation.py:20-23. */
  const MultiLineObject: string := "{\n            \"key\": \"value\",\n            \"number\": 42\n        }"

  /** Text that parses as a whole is returned as parsed, nested objects,
      arrays and line breaks included (tests/test_validation.py:8-11, 18-25,
      37-47). */
  lemma WholeJsonExtracted(parse: Parser)
    requires parse("{\"test\": \"value\"}") == Some(TestObject())
    requires parse(MultiLineObject) == Some(JObj(map["key" := JStr("value"), "number" := JInt(42)]))
    requires parse("{\"outer\": {\"inner\": \"value\"}}") == Some(JObj(map["outer" := JObj(map["inner" := JStr("value")])]))
    requires parse("{\"items\": [1, 2, 3]}") == Some(JObj(map["items" := JArr([JInt(1), JInt(2), JInt(3)])]))
    ensures ExtractJson(parse, "{\"test\": \"value\"}") == Some(TestObject())
    ensures ExtractJson(parse, MultiLineObject) == Some(JObj(map["key" := JStr("value"), "number" := JInt(42)]))
    ensures ExtractJson(parse, "{\"outer\": {\"inner\": \"value\"}}") == Some(JObj(map["outer" := JObj(map["inner" := JStr("value")])]))
    ensures ExtractJson(parse, "{\"items\": [1, 2, 3]}") == Some(JObj(map["items" := JArr([JInt(1), JInt(2), JInt(3)])]))
  {
  }

  /** The object inside `Some explanation {...} more text` is found by the
      brace window (tests/test_validation.py:13-16). */
  lemma SurroundedJsonExtracted(parse: Parser)
    requires parse("Some explanation " + "{\"test\": \"value\"}" + " more text").None?
    requires parse("{\"test\": \"value\"}") == Some(TestObject())
    ensures ExtractJson(parse, "Some explanation " + "{\"test\": \"value\"}" + " more text") == Some(TestObject())
  {
    var prefix := "Some explanation ";
    var suffix := " more text";
    assert forall i :: 0 <= i < |prefix| ==> prefix[i] != '{';
    assert forall i :: 0 <= i < |suffix| ==> suffix[i] != '}';
    ProseWrappedPayload(parse, prefix, "{\"test\": \"value\"}", suffix);
  }

  /** Text without any `{`, and text whose `{` is never closed, extract to
      nothing (tests/test_validation.py:27-35). */
  lemma NoObjectExtractsNothing(parse: Parser)
    requires parse("no json here at all").None?
    requires parse("{\"incomplete\": \"json\"").None?
    ensures ExtractJson(parse, "no json here at all") == None
    ensures ExtractJson(parse, "{\"incomplete\": \"json\"") == None
  {
    var prose := "no json here at all";
    assert forall i :: 0 <= i < |prose| ==> prose[i] != '{';
    NoWindowMeansNone(parse, prose);
    var open := "{\"incomplete\": \"json\"";
    assert forall j :: 0 <= j < |open| ==> open[j] != '}';
    NoWindowMeansNone(parse, open);
  }

  // ---------- schema (tests/test_validation.py:53-120) ----------

  /** The prompt-strategy member of the tests' documents. */
  function TestStrategy(loop: string): Json
  {
    JObj(map[
      "generation_sequence" := JArr([]),
      "validation_loop" := JStr(loop),
      "self_critique_strategy" := JStr(loop),
      "hallucination_prevention_rules" := JArr([])])
  }

  /** The tests' complete plan, with `environment_variables` set to `env`. */
  function TestPlan(loop: string, env: Json): map<string, Json>
  {
    map[
      "project_specification" := JObj(map[]),
      "folder_structure" := JObj(map[]),
      "environment_variables" := env,
      "security_architecture" := JObj(map[]),
      "optimized_prompt" := JObj(map[]),
      "ai_prompt_strategy" := TestStrategy(loop),
      "interaction_plan" := JArr([]),
      "risks" := JArr([]),
      "ai_failure_cases" := JArr([]),
      "testing_checklist" := JArr([]),
      "refactor_advice" := JArr([]),
      "secret_hacks" := JArr([])]
  }

  /** The complete plan passes the schema (tests/test_validation.py:53-78). */
  lemma CompletePlanValid(loop: string)
    ensures IsValid(PlanSchema, JObj(TestPlan(loop, JArr([]))))
  {
    PlanDocumentIsValid(JObj(TestPlan(loop, JArr([]))));
  }

  /** A plan holding only `project_specification` is rejected, with
      `folder_structure` among the missing members
      (tests/test_validation.py:81-92). */
  lemma MissingFieldsInvalid()
    ensures MissingKey([], "folder_structure") in Errors(PlanSchema, JObj(map["project_specification" := JObj(map[])]), [])
    ensures !IsValid(PlanSchema, JObj(map["project_specification" := JObj(map[])]))
  {
    assert PlanRequired[1] == "folder_structure";
    PlanMissingMemberReported(map["project_specification" := JObj(map[])], 1);
  }

  /** `environment_variables` given as a string is reported as a type error
      at that member (tests/test_validation.py:94-120). */
  lemma StringEnvironmentVariablesInvalid()
    ensures WrongKind(["environment_variables"], ArrayKind) in Errors(PlanSchema, JObj(TestPlan("", JStr("should be array, not string"))), [])
    ensures !IsValid(PlanSchema, JObj(TestPlan("", JStr("should be array, not string"))))
  {
    var m := TestPlan("", JStr("should be array, not string"));
    assert PlanSchema.properties[2].name == "environment_variables";
    PlanWrongKindReported(m, 2);
  }

  /** The indentation around the plan in the multi-pass test. */
  const Indent: string := "\n        "

  /** The prose before the plan in the multi-pass test:
      a line break, indentation, `The system generates this plan:`, a line
      break and indentation. */
  const Preamble: string := Indent + "The system " + "generates " + "this plan:" + Indent

  lemma PreambleHasNoBrace()
    ensures '{' !in Preamble && '}' !in Indent
  {
    var words := "The system ";
    var more := "generates ";
    var last := "this plan:";
    assert forall i :: 0 <= i < |Indent| ==> Indent[i] != '{' && Indent[i] != '}';
    assert forall i :: 0 <= i < |words| ==> words[i] != '{';
    assert forall i :: 0 <= i < |more| ==> more[i] != '{';
    assert forall i :: 0 <= i < |last| ==> last[i] != '{';
    NotInConcat('{', Indent, words);
    NotInConcat('{', Indent + words, more);
    NotInConcat('{', Indent + words + more, last);
    NotInConcat('{', Indent + words + more + last, Indent);
  }

  /** The plan wrapped in prose is extracted through the brace window and
      then passes the schema (tests/test_validation.py:126-158). */
  lemma ProseWrappedPlanValid(parse: Parser, payload: string)
    requires |payload| >= 2 && payload[0] == '{' && payload[|payload| - 1] == '}'
    requires parse(Preamble + payload + Indent).None?
    requires parse(payload) == Some(JObj(TestPlan("test", JArr([]))))
    ensures ExtractJson(parse, Preamble + payload + Indent) == Some(JObj(TestPlan("test", JArr([]))))
    ensures IsValid(PlanSchema, JObj(TestPlan("test", JArr([]))))
  {
    PreambleHasNoBrace();
    ProseWrappedPayload(parse, Preamble, payload, Indent);
    CompletePlanValid("test");
  }

  // ---------- score parsing (app.py:303-309) ----------

  /** `"8/10"` reads as 8. */
  lemma FractionScoreExample()
    ensures ScoreValue(JStr("8/10")) == Some(8)
  {
    assert DecimalText(8) == "8";
    assert "" + DecimalText(8) + "" + "/" + "10" == "8/10";
    FractionScoreReadsNumerator(8, "", "", "10");
  }

  /** `" 5 "` reads as 5. */
  lemma PaddedScoreExample()
    ensures ScoreValue(JStr(" 5 ")) == Some(5)
  {
    var pad, five := " ", "5";
    assert AllDigits(five) && DigitsValue(five) == 5;
    assert AllBlank(pad, IsIntSpace);
    SignedScoreReads(pad, "", five, pad);
    assert pad + "" + five + pad == " 5 ";
  }

  /** `int()` accepts a leading sign and leading zeros: `"+5"` and `"05"`
      read as 5 and `"-3"` as -3. */
  lemma SignedAndZeroPaddedScores()
    ensures ScoreValue(JStr("+5")) == Some(5)
    ensures ScoreValue(JStr("05")) == Some(5)
    ensures ScoreValue(JStr("-3")) == Some(-3)
  {
    PlusFiveReads();
    ZeroFiveReads();
    MinusThreeReads();
  }

  /** `"+5"` reads as 5. */
  lemma PlusFiveReads()
    ensures ScoreValue(JStr("+5")) == Some(5)
  {
    var five := "5";
    assert "" + "+" + five + "" == "+5";
    assert AllDigits(five) && SignedValue("+", five) == 5;
    SignedScoreReads("", "+", five, "");
  }

  /** `"05"` reads as 5. */
  lemma ZeroFiveReads()
    ensures ScoreValue(JStr("05")) == Some(5)
  {
    var zeroFive := "05";
    assert "" + "" + zeroFive + "" == zeroFive;
    assert zeroFive[..1] == "0" && DigitsValue(zeroFive[..1]) == 0;
    assert AllDigits(zeroFive) && SignedValue("", zeroFive) == 5;
    SignedScoreReads("", "", zeroFive, "");
  }

  /** `"-3"` reads as -3. */
  lemma MinusThreeReads()
    ensures ScoreValue(JStr("-3")) == Some(-3)
  {
    var three := "3";
    assert "" + "-" + three + "" == "-3";
    assert AllDigits(three) && SignedValue("-", three) == -3;
    SignedScoreReads("", "-", three, "");
  }

  /** A score of `"\x1c5"` does not read, because `int()` does not skip the
      file separator that `str.strip()` would remove, so it never triggers
      regeneration; `"\x1c5/10"` reads as 5. */
  lemma SeparatorPaddedScoreKeeps()
    ensures ScoreValue(JStr([28 as char, '5'])) == None
    ensures !ShouldRegenerate(Some(JObj(map[ScoreKey := JStr([28 as char, '5'])])))
    ensures ScoreValue(JStr([28 as char, '5', '/', '1', '0'])) == Some(5)
  {
    SeparatorScoreUnreadable();
    SeparatorFractionReads();
  }

  /** `"\x1c5"` on its own goes to `int()` unstripped. */
  lemma SeparatorScoreUnreadable()
    ensures ScoreValue(JStr([28 as char, '5'])) == None
  {
    assert DecimalText(5) == "5";
    assert [28 as char] + DecimalText(5) == [28 as char, '5'];
    SeparatorPaddingRejected(28 as char, 5);
  }

  /** `"\x1c5/10"` is stripped before `int()` sees it. */
  lemma SeparatorFractionReads()
    ensures ScoreValue(JStr([28 as char, '5', '/', '1', '0'])) == Some(5)
  {
    assert DecimalText(5) == "5";
    assert [28 as char] + DecimalText(5) + "" + "/" + "10" == [28 as char, '5', '/', '1', '0'];
    assert AllBlank([28 as char], IsSpace);
    FractionScoreReadsNumerator(5, [28 as char], "", "10");
  }

  /** The integer 4 reads as 4, and a score document without the score
      reads as 0. */
  lemma IntegerAndAbsentScoreExamples()
    ensures ScoreValue(JInt(4)) == Some(4)
    ensures ReadScore(JObj(map["production_score" := JStr("9")])) == Some(0)
  {
    IntegerScoreReadsBack(4);
    AbsentScoreIsZero(map["production_score" := JStr("9")]);
  }

  /** A range such as `"1-10"` does not read. */
  lemma RangeScoreUnreadable()
    ensures ScoreValue(JStr("1-10")) == None
  {
    var range := "1-10";
    assert '/' !in range by {
      assert forall i :: 0 <= i < |range| ==> range[i] != '/';
    }
    TrimUnpadded(range, IsIntSpace);
    assert !AllDigits(range) by { assert range[1] == '-'; }
  }

  /** A decimal such as `"7.5"` does not read. */
  lemma DecimalScoreUnreadable()
    ensures ScoreValue(JStr("7.5")) == None
  {
    var decimal := "7.5";
    assert '/' !in decimal by {
      assert forall i :: 0 <= i < |decimal| ==> decimal[i] != '/';
    }
    PyIntRejectsForeignChar(decimal, 1);
  }

  /** Scores that do not read: a range, a decimal, a bare denominator,
      `null`, and a score document that is not an object. */
  lemma UnreadableScores()
    ensures ScoreValue(JStr("1-10")) == None
    ensures ScoreValue(JStr("7.5")) == None
    ensures ScoreValue(JStr("/10")) == None
    ensures ScoreValue(JNull) == None
    ensures ReadScore(JArr([JStr("8")])) == None
  {
    RangeScoreUnreadable();
    DecimalScoreUnreadable();
    var slash := "/10";
    assert slash[0] == '/';
    assert BeforeSlash(slash) == [];
    NullAndBooleanScoresFail(true);
  }

  /** A score of `"4/10"` triggers regeneration. */
  lemma LowScoreRegenerates()
    ensures ShouldRegenerate(Some(JObj(map[ScoreKey := JStr("4/10")])))
  {
    LowFractionReads();
  }

  lemma LowFractionReads()
    ensures ScoreValue(JStr("4/10")) == Some(4)
  {
    assert DecimalText(4) == "4";
    assert "" + DecimalText(4) + "" + "/" + "10" == "4/10";
    FractionScoreReadsNumerator(4, "", "", "10");
  }

  /** Neither a score of `"8/10"` nor one of `"7.5"` triggers regeneration. */
  lemma HighOrUnreadableScoreKeeps()
    ensures !ShouldRegenerate(Some(JObj(map[ScoreKey := JStr("8/10")])))
    ensures !ShouldRegenerate(Some(JObj(map[ScoreKey := JStr("7.5")])))
  {
    FractionScoreExample();
    UnreadableScores();
  }

  // ---------- the endpoint (app.py:273-339) ----------

  /** Three replies: a valid, non-empty plan, a critique and a score that
      does not ask for regeneration. */
  lemma KeptPlanRun(steps: Steps, gen: string, crit: string, scoreText: string, plan: map<string, Json>, critique: Json, review: Json)
    requires steps.extract(gen) == Some(JObj(plan)) && |plan| > 0 && steps.valid(JObj(plan))
    requires steps.extract(crit) == Some(critique)
    requires steps.extract(scoreText) == Some(review) && !steps.regenerate(Some(review))
    ensures var run := Optimize(steps, [Reply(gen), Reply(crit), Reply(scoreText)]);
      && run.calls == [Generate, Critique(JObj(plan)), Score(JObj(plan[CritiqueKey := critique]))]
      && run.outcome == Succeeded(JObj(plan[CritiqueKey := critique][ReviewKey := review][MetaKey := Meta(false)]))
  {
    var script := [Reply(gen), Reply(crit), Reply(scoreText)];
    var critiqued := plan[CritiqueKey := critique];
    var calls := [Generate, Critique(JObj(plan)), Score(JObj(critiqued))];
    assert Optimize(steps, script) == AfterExtraction(steps, script, gen, JObj(plan), [Generate]);
    assert AfterExtraction(steps, script, gen, JObj(plan), [Generate]) == Review(steps, script, JObj(plan), [Generate]);
    assert [Generate] + [Critique(JObj(plan))] + [Score(JObj(critiqued))] == calls;
    assert Review(steps, script, JObj(plan), [Generate]) == Improve(steps, script, critiqued[ReviewKey := review], Some(review), calls);
  }

  /** A well-formed plan scored 8/10 is critiqued, scored and stamped, in
      three calls, and nothing else in it changes. */
  lemma HappyPathScenario(parse: Parser, gen: string, crit: string, scoreText: string, plan: map<string, Json>, critique: Json)
    requires parse(gen) == Some(JObj(plan)) && IsPlanDocument(JObj(plan))
    requires parse(crit) == Some(critique)
    requires parse(scoreText) == Some(JObj(map[ScoreKey := JStr("8/10")]))
    ensures var run := Optimize(EndpointSteps(parse), [Reply(gen), Reply(crit), Reply(scoreText)]);
      && run.calls == [Generate, Critique(JObj(plan)), Score(JObj(plan[CritiqueKey := critique]))]
      && run.outcome == Succeeded(JObj(plan[CritiqueKey := critique][ReviewKey := JObj(map[ScoreKey := JStr("8/10")])][MetaKey := Meta(false)]))
  {
    var review := JObj(map[ScoreKey := JStr("8/10")]);
    EndpointStepsAgree(parse, gen, JObj(plan), Some(review));
    EndpointStepsAgree(parse, crit, JObj(plan), None);
    EndpointStepsAgree(parse, scoreText, JObj(plan), None);
    assert "project_specification" in plan;
    HighOrUnreadableScoreKeeps();
    KeptPlanRun(EndpointSteps(parse), gen, crit, scoreText, plan, critique, review);
  }

  /** Two replies without any object end in the error carrying the first
      reply, after exactly two calls. */
  lemma GarbageScenario(parse: Parser)
    requires parse("no json here at all").None?
    requires parse("{\"incomplete\": \"json\"").None?
    ensures var run := Optimize(EndpointSteps(parse), [Reply("no json here at all"), Reply("{\"incomplete\": \"json\"")]);
      && run.outcome == InvalidJson("no json here at all")
      && run.calls == [Generate, Repair(RawText("no json here at all"))]
  {
    NoObjectExtractsNothing(parse);
    EndpointStepsAgree(parse, "no json here at all", JNull, None);
    EndpointStepsAgree(parse, "{\"incomplete\": \"json\"", JNull, None);
  }

  /** Five replies: a valid, non-empty plan, a critique, a score that asks
      for regeneration, a non-empty regenerated plan and its new score. */
  lemma RegeneratedRun(steps: Steps, gen: string, crit: string, scoreText: string, regen: string, rescore: string,
                       plan: map<string, Json>, critique: Json, review: Json, improved: map<string, Json>, rereview: Json)
    requires steps.extract(gen) == Some(JObj(plan)) && |plan| > 0 && steps.valid(JObj(plan))
    requires steps.extract(crit) == Some(critique)
    requires steps.extract(scoreText) == Some(review) && steps.regenerate(Some(review))
    requires steps.extract(regen) == Some(JObj(improved)) && |improved| > 0
    requires steps.extract(rescore) == Some(rereview)
    ensures var run := Optimize(steps, [Reply(gen), Reply(crit), Reply(scoreText), Reply(regen), Reply(rescore)]);
      var critiqued := plan[CritiqueKey := critique];
      && run.calls == [Generate, Critique(JObj(plan)), Score(JObj(critiqued)),
                       Repair(DumpedPlan(JObj(critiqued[ReviewKey := review]))), Score(JObj(improved))]
      && run.outcome == Succeeded(JObj(improved[ReviewKey := rereview][MetaKey := Meta(true)]))
  {
    var script := [Reply(gen), Reply(crit), Reply(scoreText), Reply(regen), Reply(rescore)];
    var critiqued := plan[CritiqueKey := critique];
    var reviewed := critiqued[ReviewKey := review];
    var calls := [Generate, Critique(JObj(plan)), Score(JObj(critiqued))];
    assert Optimize(steps, script) == AfterExtraction(steps, script, gen, JObj(plan), [Generate]);
    assert AfterExtraction(steps, script, gen, JObj(plan), [Generate]) == Review(steps, script, JObj(plan), [Generate]);
    assert [Generate] + [Critique(JObj(plan))] + [Score(JObj(critiqued))] == calls;
    assert Review(steps, script, JObj(plan), [Generate]) == Improve(steps, script, reviewed, Some(review), calls);
    assert Improve(steps, script, reviewed, Some(review), calls) == Regenerate(steps, script, reviewed, calls);
    AnsweredRegeneration(steps, script, reviewed, calls, improved, rereview);
  }

  /** The regeneration stage when both its calls are answered and the
      regenerated plan is a non-empty object. */
  lemma AnsweredRegeneration(steps: Steps, script: Script, doc: map<string, Json>, calls: seq<Call>, improved: map<string, Json>, rereview: Json)
    requires Respond(script, |calls|).Reply? && Respond(script, |calls| + 1).Reply?
    requires steps.extract(Respond(script, |calls|).text) == Some(JObj(improved)) && |improved| > 0
    requires steps.extract(Respond(script, |calls| + 1).text) == Some(rereview)
    ensures Regenerate(steps, script, doc, calls)
         == Run(Succeeded(JObj(improved[ReviewKey := rereview][MetaKey := Meta(true)])),
                calls + [Repair(DumpedPlan(JObj(doc))), Score(JObj(improved))])
  {
    assert calls + [Repair(DumpedPlan(JObj(doc)))] + [Score(JObj(improved))] == calls + [Repair(DumpedPlan(JObj(doc))), Score(JObj(improved))];
  }

  /** A plan scored 4/10 is regenerated; the truthy regeneration replaces
      it, is re-scored and is stamped as regenerated, in five calls. */
  lemma LowScoreScenario(parse: Parser, gen: string, crit: string, scoreText: string, regen: string, rescore: string,
                         plan: map<string, Json>, critique: Json, improved: map<string, Json>, rereview: Json)
    requires parse(gen) == Some(JObj(plan)) && IsPlanDocument(JObj(plan))
    requires parse(crit) == Some(critique)
    requires parse(scoreText) == Some(JObj(map[ScoreKey := JStr("4/10")]))
    requires parse(regen) == Some(JObj(improved)) && |improved| > 0
    requires parse(rescore) == Some(rereview)
    ensures var run := Optimize(EndpointSteps(parse), [Reply(gen), Reply(crit), Reply(scoreText), Reply(regen), Reply(rescore)]);
      var critiqued := plan[CritiqueKey := critique];
      && run.calls == [Generate, Critique(JObj(plan)), Score(JObj(critiqued)),
                       Repair(DumpedPlan(JObj(critiqued[ReviewKey := JObj(map[ScoreKey := JStr("4/10")])]))), Score(JObj(improved))]
      && run.outcome == Succeeded(JObj(improved[ReviewKey := rereview][MetaKey := Meta(true)]))
  {
    var review := JObj(map[ScoreKey := JStr("4/10")]);
    EndpointStepsAgree(parse, gen, JObj(plan), Some(review));
    EndpointStepsAgree(parse, crit, JObj(plan), None);
    EndpointStepsAgree(parse, scoreText, JObj(plan), None);
    EndpointStepsAgree(parse, regen, JObj(plan), None);
    EndpointStepsAgree(parse, rescore, JObj(plan), None);
    assert "project_specification" in plan;
    LowScoreRegenerates();
    RegeneratedRun(EndpointSteps(parse), gen, crit, scoreText, regen, rescore, plan, critique, review, improved, rereview);
  }
}
