/** The decision logic of the optimisation endpoint (`optimize_workflow`,
    app.py:273-339): generate a plan, repair it once if it does not extract,
    give up with the raw response if the repair does not extract either,
    repair it once more if it breaks the schema, critique it, score it,
    regenerate it once if the score is below 6, and stamp it with `meta`.

    The language-model gateway (`call_groq`, and through it `critique_plan`,
    `engineering_score` and `regenerate_if_invalid`) is a scripted sequence of
    responses: the call numbered `k`, counting from 0, receives `script[k]`.
    A run records every call it made, with the document it handed over, and
    its outcome. The pure steps applied to each reply (extraction, the schema
    check, the regeneration decision) are parameters gathered in `Steps`, so
    every property below holds for any such steps; `EndpointSteps` is the
    instance the endpoint uses. */
module Pipeline {
  import opened JsonModel
  import opened Extraction
  import opened Schema
  import opened ScoreParsing

  /** The model named in every gateway request and in `meta` (app.py:15). */
  const ModelName: string := "llama-3.1-8b-instant"

  /** Sampling temperature of the generation call and the value reported in
      `meta` (app.py:69, 330); it is a label only. */
  const GenerationTemperature: real := 0.3

  /** The members the pipeline writes into the plan (app.py:296, 300, 323, 328). */
  const CritiqueKey: string := "ai_self_critique"
  const ReviewKey: string := "engineering_review"
  const MetaKey: string := "meta"

  /** How a gateway call can fail. `BodyNotJson` is the `ValueError` that
      `response.json()` raises on a body that is not JSON (app.py:84), and
      stands as well for the request errors of `requests` that are
      `ValueError`s too (an invalid URL or header, app.py:81);
      `Transport` stands for every other exception out of `call_groq`: a
      connection error or timeout, an HTTP error status, a body without
      `choices[0].message.content`, or content that is not a string. */
  datatype FailKind = BodyNotJson | Transport

  /** What one gateway call yields: the message content, or an exception. */
  datatype Response = Reply(text: string) | Failed(kind: FailKind)

  type Script = seq<Response>

  /** The three pure steps the endpoint applies to model output: extraction
      of a JSON value from a reply (app.py:90-100), the schema check
      (app.py:289) and the score-based regeneration decision
      (app.py:303-309). The pipeline takes them as parameters, so its
      properties hold for any steps; the endpoint uses `EndpointSteps`. */
  datatype Steps = Steps(extract: string -> Option<Json>, valid: Json -> bool, regenerate: Option<Json> -> bool)

  /** `extract_json` over the given `json.loads`,
      `validate(instance=plan, schema=SCHEMA)` succeeding, and the decision
      modelled in `ScoreParsing`. */
  function EndpointSteps(parse: Parser): Steps
  {
    Steps((text: string) => ExtractJson(parse, text), (plan: Json) => IsValid(PlanSchema, plan), ShouldRegenerate)
  }

  /** The response to call number `k`; a script that runs out behaves like
      an unreachable gateway. */
  function Respond(script: Script, k: nat): Response
  {
    if k < |script| then script[k] else Failed(Transport)
  }

  /** What a repair request is asked to fix: the raw generation output
      (app.py:279, 292) or the serialised reviewed plan (app.py:310-316). */
  datatype RepairInput = RawText(text: string) | DumpedPlan(plan: Json)

  /** One gateway call and the document it was given. `Critique(JNull)` is
      the critique of `None`, serialised as `null`. */
  datatype Call =
    | Generate
    | Repair(original: RepairInput)
    | Critique(plan: Json)
    | Score(plan: Json)

  /** The three ways the endpoint answers: the stamped plan; the 500 reply
      `{"error": "Failed to produce valid JSON", "raw": raw}` (app.py:282-286);
      or the generic 500 reply of the outer `except Exception` (app.py:338-339). */
  datatype Outcome = Succeeded(doc: Json) | InvalidJson(raw: string) | Crashed

  datatype Run = Run(outcome: Outcome, calls: seq<Call>)

  /** The `meta` member written on every successful run (app.py:328-334). */
  function Meta(applied: bool): Json
  {
    JObj(map[
      "model_used" := JStr(ModelName),
      "temperature" := JFloat(GenerationTemperature),
      "multi_pass" := JBool(true),
      "schema_enforced" := JBool(true),
      "auto_regeneration_applied" := JBool(applied)])
  }

  /** A successful reply carries a `meta` member that is one of the two
      possible stamps. */
  predicate Stamped(doc: Json)
  {
    doc.JObj? && MetaKey in doc.fields && (doc.fields[MetaKey] == Meta(false) || doc.fields[MetaKey] == Meta(true))
  }

  /** The repair at app.py:310, fed the serialised reviewed plan. */
  predicate IsRegeneration(c: Call)
  {
    c.Repair? && c.original.DumpedPlan?
  }

  /** The two calls inside the `try` of app.py:304-325 whose `ValueError` is
      swallowed: the regeneration and the re-score that follows it. */
  predicate GuardedCall(calls: seq<Call>, j: int)
  {
    0 <= j < |calls| && (IsRegeneration(calls[j]) || (j > 0 && IsRegeneration(calls[j - 1])))
  }

  /** The whole endpoint, from the generation call (app.py:273-274) on. */
  function Optimize(steps: Steps, script: Script): (run: Run)
    ensures 1 <= |run.calls| <= 7 && run.calls[0] == Generate
  {
    var calls := [Generate];
    match Respond(script, 0)
    case Failed(_) => Run(Crashed, calls)
    case Reply(raw) =>
      var first := steps.extract(raw);
      if Present(first) then AfterExtraction(steps, script, raw, first.value, calls)
      else
        var repairCalls := calls + [Repair(RawText(raw))];
        match Respond(script, 1)
        case Failed(_) => Run(Crashed, repairCalls)
        case Reply(repaired) =>
          var second := steps.extract(repaired);
          if Present(second) then AfterExtraction(steps, script, raw, second.value, repairCalls)
          else Run(InvalidJson(raw), repairCalls)
  }

  /** The schema gate (app.py:288-292): a plan that breaks the schema is
      replaced by the extraction of a second repair of the ORIGINAL raw
      output, which is passed on without being validated again. */
  function AfterExtraction(steps: Steps, script: Script, raw: string, plan: Json, calls: seq<Call>): (run: Run)
    ensures calls < run.calls && |run.calls| <= |calls| + 5
    ensures !run.outcome.InvalidJson?
    ensures run.outcome.Succeeded? ==> Stamped(run.outcome.doc)
  {
    if steps.valid(plan) then Review(steps, script, plan, calls)
    else
      var repairCalls := calls + [Repair(RawText(raw))];
      match Respond(script, |calls|)
      case Failed(_) => Run(Crashed, repairCalls)
      case Reply(repaired) => Review(steps, script, OrNull(steps.extract(repaired)), repairCalls)
  }

  /** Critique and score (app.py:294-300). The critique call is made before
      the plan is written to, so a plan that is not an object fails only after
      it; critique and score are stored whatever they are, `None` as `null`. */
  function Review(steps: Steps, script: Script, plan: Json, calls: seq<Call>): (run: Run)
    ensures calls + [Critique(plan)] <= run.calls && |run.calls| <= |calls| + 4
    ensures !run.outcome.InvalidJson?
    ensures run.outcome.Succeeded? ==> |run.calls| >= |calls| + 2 && Stamped(run.outcome.doc)
    ensures forall i :: |calls| < i < |run.calls| ==> run.calls[i].Score? || IsRegeneration(run.calls[i])
  {
    var critiqueCalls := calls + [Critique(plan)];
    match Respond(script, |calls|)
    case Failed(_) => Run(Crashed, critiqueCalls)
    case Reply(critiqueText) =>
      var critique := steps.extract(critiqueText);
      if !plan.JObj? then Run(Crashed, critiqueCalls)
      else
        var critiqued := plan.fields[CritiqueKey := OrNull(critique)];
        var scoreCalls := critiqueCalls + [Score(JObj(critiqued))];
        match Respond(script, |critiqueCalls|)
        case Failed(_) => Run(Crashed, scoreCalls)
        case Reply(scoreText) =>
          var score := steps.extract(scoreText);
          Improve(steps, script, critiqued[ReviewKey := OrNull(score)], score, scoreCalls)
  }

  /** The regeneration decision (app.py:302-309): regenerate only for a
      truthy score document whose score reads as an integer below 6. */
  function Improve(steps: Steps, script: Script, doc: map<string, Json>, score: Option<Json>, calls: seq<Call>): (run: Run)
    ensures calls <= run.calls && |run.calls| <= |calls| + 2
    ensures !run.outcome.InvalidJson?
    ensures run.outcome.Succeeded? ==> Stamped(run.outcome.doc)
    ensures forall i :: |calls| <= i < |run.calls| ==> run.calls[i].Score? || IsRegeneration(run.calls[i])
  {
    if steps.regenerate(score) then Regenerate(steps, script, doc, calls)
    else Finish(JObj(doc), false, calls)
  }

  /** Regeneration and re-score (app.py:310-325). Only a `ValueError` or an
      `AttributeError` is caught there: a body that is not JSON from either
      call leaves the run going, any other failure ends it. An improved
      document that is not an object fails when its review is written
      (app.py:323) or, if the re-score was swallowed, when `meta` is written
      (app.py:328). */
  function Regenerate(steps: Steps, script: Script, doc: map<string, Json>, calls: seq<Call>): (run: Run)
    ensures calls + [Repair(DumpedPlan(JObj(doc)))] <= run.calls && |run.calls| <= |calls| + 2
    ensures !run.outcome.InvalidJson?
    ensures run.outcome.Succeeded? ==> Stamped(run.outcome.doc)
    ensures |run.calls| == |calls| + 2 ==> run.calls[|calls| + 1].Score?
  {
    var regenCalls := calls + [Repair(DumpedPlan(JObj(doc)))];
    match Respond(script, |calls|)
    case Failed(Transport) => Run(Crashed, regenCalls)
    case Failed(BodyNotJson) => Finish(JObj(doc), false, regenCalls)
    case Reply(improvedText) =>
      var improved := steps.extract(improvedText);
      if !Present(improved) then Finish(JObj(doc), false, regenCalls)
      else
        var rescoreCalls := regenCalls + [Score(improved.value)];
        match Respond(script, |regenCalls|)
        case Failed(Transport) => Run(Crashed, rescoreCalls)
        case Failed(BodyNotJson) => Finish(improved.value, true, rescoreCalls)
        case Reply(rescoreText) =>
          if improved.value.JObj? then
            Finish(JObj(improved.value.fields[ReviewKey := OrNull(steps.extract(rescoreText))]), true, rescoreCalls)
          else Run(Crashed, rescoreCalls)
  }

  /** The `meta` stamp (app.py:327-336): the document keeps every other
      member and gains or overwrites `meta`; writing it into a non-object
      fails. */
  function Finish(doc: Json, applied: bool, calls: seq<Call>): (run: Run)
    ensures run.calls == calls
    ensures run.outcome.Succeeded? <==> doc.JObj?
    ensures run.outcome.Succeeded? ==> run.outcome.doc.JObj?
    ensures run.outcome.Succeeded? ==> run.outcome.doc.fields.Keys == doc.fields.Keys + {MetaKey}
    ensures run.outcome.Succeeded? ==> run.outcome.doc.fields[MetaKey] == Meta(applied)
    ensures run.outcome.Succeeded? ==>
      forall k :: k in doc.fields && k != MetaKey ==> run.outcome.doc.fields[k] == doc.fields[k]
  {
    if doc.JObj? then Run(Succeeded(JObj(doc.fields[MetaKey := Meta(applied)])), calls)
    else Run(Crashed, calls)
  }

  /** A failed call is the run's last, and only the two calls inside the
      `try` at app.py:304-325 survive one, and only when it is a body that is
      not JSON. */
  predicate FailureIsFinal(script: Script, run: Run, j: int)
  {
    0 <= j < |run.calls| && Respond(script, j).Failed? ==>
      && j == |run.calls| - 1
      && (run.outcome.Crashed? || (Respond(script, j) == Failed(BodyNotJson) && GuardedCall(run.calls, j)))
  }

  lemma ImproveFailuresFinal(steps: Steps, script: Script, doc: map<string, Json>, score: Option<Json>, calls: seq<Call>, j: int)
    requires |calls| <= j
    ensures FailureIsFinal(script, Improve(steps, script, doc, score, calls), j)
  {
    if steps.regenerate(score) && j <= |calls| + 1 {
      var regenCalls := calls + [Repair(DumpedPlan(JObj(doc)))];
      assert IsRegeneration(regenCalls[|calls|]);
      var run := Regenerate(steps, script, doc, calls);
      assert run.calls[|calls|] == regenCalls[|calls|];
    }
  }

  lemma ReviewFailuresFinal(steps: Steps, script: Script, plan: Json, calls: seq<Call>, j: int)
    requires |calls| <= j
    ensures FailureIsFinal(script, Review(steps, script, plan, calls), j)
  {
    if j > |calls| + 1 && Respond(script, |calls|).Reply? && plan.JObj? && Respond(script, |calls| + 1).Reply? {
      var critiqued := plan.fields[CritiqueKey := OrNull(steps.extract(Respond(script, |calls|).text))];
      var scoreCalls := calls + [Critique(plan)] + [Score(JObj(critiqued))];
      var score := steps.extract(Respond(script, |calls| + 1).text);
      ImproveFailuresFinal(steps, script, critiqued[ReviewKey := OrNull(score)], score, scoreCalls, j);
    }
  }

  lemma AfterExtractionFailuresFinal(steps: Steps, script: Script, raw: string, plan: Json, calls: seq<Call>, j: int)
    requires |calls| <= j
    ensures FailureIsFinal(script, AfterExtraction(steps, script, raw, plan, calls), j)
  {
    if steps.valid(plan) {
      ReviewFailuresFinal(steps, script, plan, calls, j);
    } else if j > |calls| && Respond(script, |calls|).Reply? {
      var repaired := OrNull(steps.extract(Respond(script, |calls|).text));
      ReviewFailuresFinal(steps, script, repaired, calls + [Repair(RawText(raw))], j);
    }
  }

  /** Every failed gateway call ends the run: no call follows it, and the
      endpoint answers with the generic error unless the failure is a body
      that is not JSON from the regeneration or the re-score, which the
      `except (ValueError, AttributeError)` at app.py:324 swallows. In
      particular a transport failure always ends in the generic error
      (app.py:81-82, 338-339). */
  lemma FailuresEndRun(steps: Steps, script: Script)
    ensures forall j :: FailureIsFinal(script, Optimize(steps, script), j)
  {
    var run := Optimize(steps, script);
    forall j | 0 <= j < |run.calls|
      ensures FailureIsFinal(script, run, j)
    {
      if Respond(script, 0).Reply? {
        var raw := Respond(script, 0).text;
        var first := steps.extract(raw);
        if Present(first) {
          if j > 0 {
            assert run == AfterExtraction(steps, script, raw, first.value, [Generate]);
            AfterExtractionFailuresFinal(steps, script, raw, first.value, [Generate], j);
          }
        } else if Respond(script, 1).Reply? {
          var second := steps.extract(Respond(script, 1).text);
          if Present(second) {
            var calls := [Generate, Repair(RawText(raw))];
            assert [Generate] + [Repair(RawText(raw))] == calls;
            assert run == AfterExtraction(steps, script, raw, second.value, calls);
            if j > 1 {
              AfterExtractionFailuresFinal(steps, script, raw, second.value, calls, j);
            }
          }
        }
      }
    }
  }

  /** The error reply carrying the raw output (app.py:282-286) is given
      exactly when neither the generation nor the repair of it extracts to a
      truthy value, after exactly those two calls, with the ORIGINAL output
      as `raw`; no critique or score call is made. A successful run makes
      between 3 and 7 calls. */
  lemma InvalidJsonExit(steps: Steps, script: Script)
    ensures Optimize(steps, script).outcome.InvalidJson? <==>
      && Respond(script, 0).Reply? && !Present(steps.extract(Respond(script, 0).text))
      && Respond(script, 1).Reply? && !Present(steps.extract(Respond(script, 1).text))
    ensures Optimize(steps, script).outcome.InvalidJson? ==>
      && Optimize(steps, script).outcome.raw == Respond(script, 0).text
      && Optimize(steps, script).calls == [Generate, Repair(RawText(Respond(script, 0).text))]
  {
  }

  /** A successful run makes at least the generation, critique and score
      calls and is stamped with `meta`. */
  lemma SuccessShape(steps: Steps, script: Script)
    requires Optimize(steps, script).outcome.Succeeded?
    ensures 3 <= |Optimize(steps, script).calls| <= 7
    ensures Stamped(Optimize(steps, script).outcome.doc)
  {
  }

  /** The calls made before the critique: the generation and the repairs
      of its raw output. */
  predicate BeforeReview(c: Call)
  {
    c.Generate? || (c.Repair? && c.original.RawText?)
  }

  /** The schema gate hands over to `Review` at the critique call, after at
      most one repair of the raw output. */
  lemma AfterExtractionSplit(steps: Steps, script: Script, raw: string, plan: Json, calls: seq<Call>) returns (k: nat)
    ensures var run := AfterExtraction(steps, script, raw, plan, calls);
      && |calls| <= k <= |calls| + 1 && k <= |run.calls|
      && (forall i :: 0 <= i < |calls| ==> run.calls[i] == calls[i])
      && (forall i :: |calls| <= i < k ==> run.calls[i] == Repair(RawText(raw)))
      && (k < |run.calls| ==> run.calls[k].Critique? && run == Review(steps, script, run.calls[k].plan, run.calls[..k]))
  {
    var run := AfterExtraction(steps, script, raw, plan, calls);
    if steps.valid(plan) {
      k := |calls|;
      assert run.calls[..k] == calls;
    } else {
      var repairCalls := calls + [Repair(RawText(raw))];
      k := |repairCalls|;
      if Respond(script, |calls|).Reply? {
        assert run.calls[..k] == repairCalls;
      }
    }
  }

  /** Where a run reaches the critique call, the rest of it is `Review` of
      the plan handed to that call; the calls before it are the generation
      and one or two repairs of the raw output. */
  lemma ReviewSplit(steps: Steps, script: Script) returns (k: nat)
    ensures var run := Optimize(steps, script);
      && 1 <= k <= 3 && k <= |run.calls|
      && (forall i :: 0 <= i < k ==> BeforeReview(run.calls[i]))
      && (forall i :: 1 <= i < k ==> run.calls[i] == Repair(RawText(Respond(script, 0).text)))
      && (k < |run.calls| ==> run.calls[k].Critique? && run == Review(steps, script, run.calls[k].plan, run.calls[..k]))
  {
    var run := Optimize(steps, script);
    k := 1;
    if Respond(script, 0).Reply? {
      var raw := Respond(script, 0).text;
      var first := steps.extract(raw);
      if Present(first) {
        assert run == AfterExtraction(steps, script, raw, first.value, [Generate]);
        k := AfterExtractionSplit(steps, script, raw, first.value, [Generate]);
      } else if Respond(script, 1).Reply? && Present(steps.extract(Respond(script, 1).text)) {
        var calls := [Generate, Repair(RawText(raw))];
        var plan := steps.extract(Respond(script, 1).text).value;
        assert [Generate] + [Repair(RawText(raw))] == calls;
        assert run == AfterExtraction(steps, script, raw, plan, calls);
        k := AfterExtractionSplit(steps, script, raw, plan, calls);
      } else {
        k := 2;
      }
    }
  }

  /** Where `Review` reaches the regeneration call, it is the third call of
      the stage, fed the critiqued and scored plan, and the rest of the run
      is `Regenerate` of that plan. */
  lemma ReviewRegenerationAt(steps: Steps, script: Script, plan: Json, calls: seq<Call>, r: int)
    requires var run := Review(steps, script, plan, calls);
      |calls| <= r < |run.calls| && IsRegeneration(run.calls[r])
    ensures var run := Review(steps, script, plan, calls);
      && r == |calls| + 2
      && run.calls[r].original.plan.JObj?
      && run == Regenerate(steps, script, run.calls[r].original.plan.fields, run.calls[..r])
  {
    var run := Review(steps, script, plan, calls);
    var critiqued := plan.fields[CritiqueKey := OrNull(steps.extract(Respond(script, |calls|).text))];
    var scoreCalls := calls + [Critique(plan)] + [Score(JObj(critiqued))];
    var score := steps.extract(Respond(script, |calls| + 1).text);
    var reviewed := critiqued[ReviewKey := OrNull(score)];
    assert run == Regenerate(steps, script, reviewed, scoreCalls);
    assert run.calls[..r] == scoreCalls;
  }

  /** Both repairs of the raw output are fed the ORIGINAL generation output,
      never the first repair's output: the extraction repair is the second
      call and the schema repair the second or third, and no other call
      repairs raw text (app.py:279, 292). */
  lemma RawRepairsSeeOriginalOutput(steps: Steps, script: Script)
    ensures var run := Optimize(steps, script);
      forall i :: 0 <= i < |run.calls| && run.calls[i].Repair? && run.calls[i].original.RawText? ==>
        && (i == 1 || i == 2)
        && Respond(script, 0).Reply?
        && run.calls[i].original.text == Respond(script, 0).text
  {
    var run := Optimize(steps, script);
    var k := ReviewSplit(steps, script);
    if k < |run.calls| {
      var review := Review(steps, script, run.calls[k].plan, run.calls[..k]);
      assert forall i :: k < i < |run.calls| ==> run.calls[i] == review.calls[i];
    }
    forall i | 0 <= i < |run.calls| && run.calls[i].Repair? && run.calls[i].original.RawText?
      ensures i == 1 || i == 2
      ensures Respond(script, 0).Reply? && run.calls[i].original.text == Respond(script, 0).text
    {
      assert i != 0;
      assert i < k;
    }
  }

  /** A truthy first extraction that passes the schema goes straight to the
      critique; one that fails it is replaced by the extraction of a repair
      of the raw output, and that replacement goes to the critique without
      being validated, whatever it is (app.py:288-294). */
  lemma FirstPlanGate(steps: Steps, script: Script)
    requires Respond(script, 0).Reply? && Present(steps.extract(Respond(script, 0).text))
    ensures var run := Optimize(steps, script);
      var raw := Respond(script, 0).text;
      var plan := steps.extract(raw).value;
      && |run.calls| >= 2
      && (steps.valid(plan) ==> run.calls[1] == Critique(plan))
      && (!steps.valid(plan) ==>
            && run.calls[1] == Repair(RawText(raw))
            && (Respond(script, 1).Reply? ==>
                  |run.calls| >= 3 && run.calls[2] == Critique(OrNull(steps.extract(Respond(script, 1).text)))))
  {
    var raw := Respond(script, 0).text;
    var plan := steps.extract(raw).value;
    assert Optimize(steps, script) == AfterExtraction(steps, script, raw, plan, [Generate]);
  }

  /** When only the extraction repair yields a truthy plan, the same gate
      applies to it one call later, and the schema repair is again fed the
      original raw output (app.py:278-294). */
  lemma RepairedPlanGate(steps: Steps, script: Script)
    requires Respond(script, 0).Reply? && !Present(steps.extract(Respond(script, 0).text))
    requires Respond(script, 1).Reply? && Present(steps.extract(Respond(script, 1).text))
    ensures var run := Optimize(steps, script);
      var raw := Respond(script, 0).text;
      var plan := steps.extract(Respond(script, 1).text).value;
      && |run.calls| >= 3
      && run.calls[1] == Repair(RawText(raw))
      && (steps.valid(plan) ==> run.calls[2] == Critique(plan))
      && (!steps.valid(plan) ==>
            && run.calls[2] == Repair(RawText(raw))
            && (Respond(script, 2).Reply? ==>
                  |run.calls| >= 4 && run.calls[3] == Critique(OrNull(steps.extract(Respond(script, 2).text)))))
  {
    var raw := Respond(script, 0).text;
    var plan := steps.extract(Respond(script, 1).text).value;
    var calls := [Generate, Repair(RawText(raw))];
    assert [Generate] + [Repair(RawText(raw))] == calls;
    assert Optimize(steps, script) == AfterExtraction(steps, script, raw, plan, calls);
  }

  /** The critique call is made whatever the plan is; a plan that is not an
      object then fails when the critique is written into it (app.py:295-296),
      and otherwise the score call is fed the plan with the critique stored
      under `ai_self_critique`, `null` when the critique did not extract
      (app.py:296-299). */
  lemma CritiqueThenScore(steps: Steps, script: Script, j: int)
    requires var run := Optimize(steps, script);
      0 <= j < |run.calls| && run.calls[j].Critique?
    ensures var run := Optimize(steps, script);
      var plan := run.calls[j].plan;
      && (!plan.JObj? ==> run.outcome.Crashed? && |run.calls| == j + 1)
      && (plan.JObj? && Respond(script, j).Reply? ==>
            && j + 1 < |run.calls|
            && run.calls[j + 1] == Score(JObj(plan.fields[CritiqueKey := OrNull(steps.extract(Respond(script, j).text))])))
  {
    var run := Optimize(steps, script);
    var k := ReviewSplit(steps, script);
    assert j >= k;
    assert j == k;
  }

  /** Within `Review` of an object plan with both calls answered, the
      scoring call is the second of the stage, and a third call, the
      regeneration, is made exactly when the score document says so. */
  lemma ReviewRegenerationIff(steps: Steps, script: Script, plan: Json, calls: seq<Call>)
    requires plan.JObj? && Respond(script, |calls|).Reply? && Respond(script, |calls| + 1).Reply?
    ensures var run := Review(steps, script, plan, calls);
      var score := steps.extract(Respond(script, |calls| + 1).text);
      && |calls| + 1 < |run.calls| && run.calls[|calls| + 1].Score? && run.calls[|calls| + 1].plan.JObj?
      && (|calls| + 2 < |run.calls| <==> steps.regenerate(score))
      && (|calls| + 2 < |run.calls| ==>
            run.calls[|calls| + 2] == Repair(DumpedPlan(JObj(run.calls[|calls| + 1].plan.fields[ReviewKey := OrNull(score)]))))
  {
    var critiqued := plan.fields[CritiqueKey := OrNull(steps.extract(Respond(script, |calls|).text))];
    var scoreCalls := calls + [Critique(plan)] + [Score(JObj(critiqued))];
    var score := steps.extract(Respond(script, |calls| + 1).text);
    var doc := critiqued[ReviewKey := OrNull(score)];
    assert Review(steps, script, plan, calls) == Improve(steps, script, doc, score, scoreCalls);
    assert scoreCalls[|calls| + 1] == Score(JObj(critiqued));
  }

  /** The regeneration call follows the score call exactly when the score
      document is truthy and its score reads as an integer below 6, and it is
      fed the reviewed plan: the critiqued plan with the score stored under
      `engineering_review` (app.py:299-316). */
  lemma RegenerationIffLowScore(steps: Steps, script: Script, j: int)
    requires var run := Optimize(steps, script);
      && 0 <= j < |run.calls| && run.calls[j].Critique? && run.calls[j].plan.JObj?
      && Respond(script, j).Reply? && Respond(script, j + 1).Reply?
    ensures var run := Optimize(steps, script);
      var score := steps.extract(Respond(script, j + 1).text);
      && j + 1 < |run.calls| && run.calls[j + 1].Score? && run.calls[j + 1].plan.JObj?
      && (j + 2 < |run.calls| <==> steps.regenerate(score))
      && (j + 2 < |run.calls| ==>
            run.calls[j + 2] == Repair(DumpedPlan(JObj(run.calls[j + 1].plan.fields[ReviewKey := OrNull(score)]))))
  {
    var run := Optimize(steps, script);
    var k := ReviewSplit(steps, script);
    assert j >= k;
    assert j == k;
    assert |run.calls[..k]| == k;
    ReviewRegenerationIff(steps, script, run.calls[k].plan, run.calls[..k]);
  }

  /** At most one regeneration call is made (app.py:310). */
  lemma AtMostOneRegeneration(steps: Steps, script: Script)
    ensures var run := Optimize(steps, script);
      forall i, i' :: 0 <= i < |run.calls| && 0 <= i' < |run.calls| && IsRegeneration(run.calls[i]) && IsRegeneration(run.calls[i']) ==> i == i'
  {
    var run := Optimize(steps, script);
    var k := ReviewSplit(steps, script);
    forall i | 0 <= i < |run.calls| && IsRegeneration(run.calls[i])
      ensures i == k + 2
    {
      assert i >= k;
      ReviewRegenerationAt(steps, script, run.calls[k].plan, run.calls[..k], i);
    }
  }

  /** What a successful run answers after a regeneration call number `r`
      fed the plan `dumped`: when the regeneration output extracts to a
      truthy value, that value (necessarily an object) replaces the plan, is
      re-scored, and is stamped with `auto_regeneration_applied` true;
      otherwise `dumped` is answered unchanged but for a `meta` stamp with the
      flag false. */
  predicate RegenerationAnswered(steps: Steps, script: Script, run: Run, r: nat, dumped: map<string, Json>)
    requires run.outcome.Succeeded?
  {
    var improved := if Respond(script, r).Reply? then steps.extract(Respond(script, r).text) else None;
    && (Present(improved) ==>
          && improved.value.JObj?
          && r + 1 < |run.calls| && run.calls[r + 1] == Score(improved.value)
          && (Respond(script, r + 1).Reply? ==>
                run.outcome.doc == JObj(improved.value.fields[ReviewKey := OrNull(steps.extract(Respond(script, r + 1).text))][MetaKey := Meta(true)]))
          && (Respond(script, r + 1).Failed? ==>
                run.outcome.doc == JObj(improved.value.fields[MetaKey := Meta(true)])))
    && (!Present(improved) ==> run.outcome.doc == JObj(dumped[MetaKey := Meta(false)]))
  }

  lemma RegenerateAnswers(steps: Steps, script: Script, doc: map<string, Json>, calls: seq<Call>)
    requires Regenerate(steps, script, doc, calls).outcome.Succeeded?
    ensures RegenerationAnswered(steps, script, Regenerate(steps, script, doc, calls), |calls|, doc)
  {
  }

  /** After a regeneration call, a successful run answers the regenerated
      plan, re-scored and flagged, exactly when the regeneration output
      extracts to a truthy value, and the plan it handed over, flagged false,
      otherwise (app.py:310-336). */
  lemma RegenerationOutcome(steps: Steps, script: Script, r: int)
    requires var run := Optimize(steps, script);
      && 0 <= r < |run.calls| && IsRegeneration(run.calls[r])
      && run.outcome.Succeeded?
    ensures var run := Optimize(steps, script);
      && run.calls[r].original.plan.JObj?
      && RegenerationAnswered(steps, script, run, r, run.calls[r].original.plan.fields)
  {
    var run := Optimize(steps, script);
    var k := ReviewSplit(steps, script);
    assert r >= k;
    ReviewRegenerationAt(steps, script, run.calls[k].plan, run.calls[..k], r);
    RegenerateAnswers(steps, script, run.calls[r].original.plan.fields, run.calls[..r]);
  }

  /** When the score does not trigger regeneration, a successful run
      answers the critiqued plan with exactly three members set: the
      critique, the score and a `meta` stamp whose flag is false; nothing
      else in the plan changes (app.py:296-336). */
  lemma NoRegenerationKeepsPlan(steps: Steps, script: Script, j: int)
    requires var run := Optimize(steps, script);
      && 0 <= j < |run.calls| && run.calls[j].Critique?
      && run.outcome.Succeeded?
      && Respond(script, j + 1).Reply? && !steps.regenerate(steps.extract(Respond(script, j + 1).text))
    ensures var run := Optimize(steps, script);
      && run.calls[j].plan.JObj? && Respond(script, j).Reply?
      && |run.calls| == j + 2
      && run.outcome.doc == JObj(run.calls[j].plan.fields
           [CritiqueKey := OrNull(steps.extract(Respond(script, j).text))]
           [ReviewKey := OrNull(steps.extract(Respond(script, j + 1).text))]
           [MetaKey := Meta(false)])
  {
    var run := Optimize(steps, script);
    var k := ReviewSplit(steps, script);
    assert j >= k;
    assert j == k;
  }

  /** The two possible `meta` stamps hold the same five members and agree on
      all but `auto_regeneration_applied`, so every success is stamped with
      the same constant fields and the flag alone tells the runs apart
      (app.py:328-334). */
  lemma StampsDifferOnlyInFlag()
    ensures Meta(true).JObj? && Meta(false).JObj?
    ensures Meta(true).fields.Keys == Meta(false).fields.Keys
    ensures |Meta(false).fields| == 5
    ensures forall k :: k in Meta(false).fields && k != "auto_regeneration_applied" ==> Meta(true).fields[k] == Meta(false).fields[k]
    ensures Meta(true).fields["auto_regeneration_applied"] == JBool(true)
    ensures Meta(false).fields["auto_regeneration_applied"] == JBool(false)
  {
  }

  /** A successful run never makes more calls than the script answers: a
      call past its end behaves like an unreachable gateway, which always
      ends the run in the generic error (app.py:81-82, 338-339). */
  lemma SuccessStaysInScript(steps: Steps, script: Script)
    ensures Optimize(steps, script).outcome.Succeeded? ==> |Optimize(steps, script).calls| <= |script|
  {
    var run := Optimize(steps, script);
    FailuresEndRun(steps, script);
    assert FailureIsFinal(script, run, |run.calls| - 1);
  }

  /** The endpoint's steps are the ones modelled in the other modules: the
      schema check accepts exactly the plan documents, and regeneration is
      decided for exactly a non-empty score dict whose score reads below 6. */
  lemma EndpointStepsAgree(parse: Parser, text: string, plan: Json, score: Option<Json>)
    ensures EndpointSteps(parse).extract(text) == ExtractJson(parse, text)
    ensures EndpointSteps(parse).valid(plan) <==> IsPlanDocument(plan)
    ensures EndpointSteps(parse).regenerate(score) <==>
      && score.Some? && score.value.JObj? && |score.value.fields| > 0
      && ReadScore(score.value).Some? && ReadScore(score.value).value < Threshold
  {
    PlanSchemaMeansPlanDocument(plan);
    RegenerationDecision(score);
  }
}
