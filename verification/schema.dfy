/** The subset of JSON Schema (draft 2020-12) that the optimizer's `SCHEMA`
    uses (app.py:20-64) and the check `validate(instance, schema)` performs
    with it (app.py:289): the `type` keyword with "object", "array" and
    "string" (section 6.1.1 of JSON Schema Validation), `required` (section
    6.5.3 of JSON Schema Validation) and `properties` (section 10.3.2.1 of
    JSON Schema Core). */
module Schema {
  import opened JsonModel

  /** The values of `type` the schema uses. */
  datatype Kind = ObjectKind | ArrayKind | StringKind

  /** A schema built from `type`, `properties` (in declaration order) and
      `required`. */
  datatype Schema = Schema(kind: Kind, properties: seq<Property>, required: seq<string>)

  /** One entry of `properties`: a member name and the schema its value obeys. */
  datatype Property = Property(name: string, schema: Schema)

  /** A validation error, located by the path of member names leading to
      the offending value. */
  datatype Violation =
    | WrongKind(path: seq<string>, expected: Kind)
    | MissingKey(path: seq<string>, key: string)

  /** The `type` keyword: "object" is a dict, "array" a list, "string" a str. */
  predicate HasKind(j: Json, k: Kind)
  {
    match k
    case ObjectKind => j.JObj?
    case ArrayKind => j.JArr?
    case StringKind => j.JStr?
  }

  /** A schema that only constrains the type, such as `{"type": "array"}`. */
  function KindOnly(k: Kind): Schema
  {
    Schema(k, [], [])
  }

  /** Every error the validator finds, in the order its keywords are
      visited: `type`, then `properties` (descending into each listed
      member that is present), then `required`. `properties` and
      `required` ignore values that are not objects. */
  function Errors(s: Schema, j: Json, path: seq<string>): seq<Violation>
    decreases s, |s.properties| + 1
  {
    (if HasKind(j, s.kind) then [] else [WrongKind(path, s.kind)])
    + (if j.JObj? then PropertyErrors(s, 0, j.fields, path) + RequiredErrors(s.required, 0, j.fields, path) else [])
  }

  /** Errors of the members listed in `s.properties[from..]` that are present. */
  function PropertyErrors(s: Schema, from: nat, fields: map<string, Json>, path: seq<string>): seq<Violation>
    requires from <= |s.properties|
    decreases s, |s.properties| - from
  {
    if from == |s.properties| then []
    else
      var p := s.properties[from];
      assert p in s.properties;
      (if p.name in fields then Errors(p.schema, fields[p.name], path + [p.name]) else [])
      + PropertyErrors(s, from + 1, fields, path)
  }

  /** One `MissingKey` for every name of `required[from..]` absent from the
      object, in the order of `required`. */
  function RequiredErrors(required: seq<string>, from: nat, fields: map<string, Json>, path: seq<string>): seq<Violation>
    requires from <= |required|
    decreases |required| - from
  {
    if from == |required| then []
    else
      (if required[from] in fields then [] else [MissingKey(path, required[from])])
      + RequiredErrors(required, from + 1, fields, path)
  }

  /** `validate` returns without raising exactly when no error is found. */
  predicate IsValid(s: Schema, j: Json)
  {
    Errors(s, j, []) == []
  }

  /** The nested `ai_prompt_strategy` schema (app.py:28-42). */
  const PromptStrategySchema: Schema := Schema(
    ObjectKind,
    [ Property("generation_sequence", KindOnly(ArrayKind)),
      Property("validation_loop", KindOnly(StringKind)),
      Property("self_critique_strategy", KindOnly(StringKind)),
      Property("hallucination_prevention_rules", KindOnly(ArrayKind)) ],
    [ "generation_sequence", "validation_loop", "self_critique_strategy", "hallucination_prevention_rules" ])

  /** The twelve required top-level members (app.py:50-63). */
  const PlanRequired: seq<string> := [
    "project_specification", "folder_structure", "environment_variables",
    "security_architecture", "optimized_prompt", "ai_prompt_strategy",
    "interaction_plan", "risks", "ai_failure_cases", "testing_checklist",
    "refactor_advice", "secret_hacks" ]

  /** `SCHEMA` (app.py:20-64). */
  const PlanSchema: Schema := Schema(
    ObjectKind,
    [ Property("project_specification", KindOnly(ObjectKind)),
      Property("folder_structure", KindOnly(ObjectKind)),
      Property("environment_variables", KindOnly(ArrayKind)),
      Property("security_architecture", KindOnly(ObjectKind)),
      Property("optimized_prompt", KindOnly(ObjectKind)),
      Property("ai_prompt_strategy", PromptStrategySchema),
      Property("interaction_plan", KindOnly(ArrayKind)),
      Property("risks", KindOnly(ArrayKind)),
      Property("ai_failure_cases", KindOnly(ArrayKind)),
      Property("testing_checklist", KindOnly(ArrayKind)),
      Property("refactor_advice", KindOnly(ArrayKind)),
      Property("secret_hacks", KindOnly(ArrayKind)) ],
    PlanRequired)

  /** The shape of a well-formed plan, written out member by member as the
      system prompt (app.py:237-255) describes it, independently of the
      schema interpreter above. */
  predicate IsPlanDocument(j: Json)
  {
    && j.JObj?
    && var m := j.fields;
    && "project_specification" in m && m["project_specification"].JObj?
    && "folder_structure" in m && m["folder_structure"].JObj?
    && "environment_variables" in m && m["environment_variables"].JArr?
    && "security_architecture" in m && m["security_architecture"].JObj?
    && "optimized_prompt" in m && m["optimized_prompt"].JObj?
    && "ai_prompt_strategy" in m && IsPromptStrategy(m["ai_prompt_strategy"])
    && "interaction_plan" in m && m["interaction_plan"].JArr?
    && "risks" in m && m["risks"].JArr?
    && "ai_failure_cases" in m && m["ai_failure_cases"].JArr?
    && "testing_checklist" in m && m["testing_checklist"].JArr?
    && "refactor_advice" in m && m["refactor_advice"].JArr?
    && "secret_hacks" in m && m["secret_hacks"].JArr?
  }

  /** The shape of `ai_prompt_strategy`. */
  predicate IsPromptStrategy(j: Json)
  {
    && j.JObj?
    && var m := j.fields;
    && "generation_sequence" in m && m["generation_sequence"].JArr?
    && "validation_loop" in m && m["validation_loop"].JStr?
    && "self_critique_strategy" in m && m["self_critique_strategy"].JStr?
    && "hallucination_prevention_rules" in m && m["hallucination_prevention_rules"].JArr?
  }

  /** A listed member is fine when it is absent or valid against its schema. */
  predicate MemberOk(p: Property, fields: map<string, Json>, path: seq<string>)
  {
    p.name in fields ==> Errors(p.schema, fields[p.name], path + [p.name]) == []
  }

  /** No `required` errors exactly when every name from `from` on is present. */
  lemma {:induction false} RequiredErrorsEmpty(required: seq<string>, from: nat, fields: map<string, Json>, path: seq<string>)
    requires from <= |required|
    ensures RequiredErrors(required, from, fields, path) == [] <==>
      forall i :: from <= i < |required| ==> required[i] in fields
    decreases |required| - from
  {
    if from < |required| {
      RequiredErrorsEmpty(required, from + 1, fields, path);
    }
  }

  /** No errors from `properties[from..]` exactly when each of those members
      is fine. */
  lemma {:induction false} PropertyErrorsEmpty(s: Schema, from: nat, fields: map<string, Json>, path: seq<string>)
    requires from <= |s.properties|
    ensures PropertyErrors(s, from, fields, path) == [] <==>
      forall i :: from <= i < |s.properties| ==> MemberOk(s.properties[i], fields, path)
    decreases |s.properties| - from
  {
    if from < |s.properties| {
      PropertyErrorsEmpty(s, from + 1, fields, path);
    }
  }

  /** A value is valid against a schema exactly when it has the schema's
      type and, if it is an object, holds every required member and every
      listed member that it holds is valid against its own schema. */
  lemma ValidIff(s: Schema, j: Json, path: seq<string>)
    ensures Errors(s, j, path) == [] <==>
      && HasKind(j, s.kind)
      && (j.JObj? ==> forall i :: 0 <= i < |s.required| ==> s.required[i] in j.fields)
      && (j.JObj? ==> forall i :: 0 <= i < |s.properties| ==> MemberOk(s.properties[i], j.fields, path))
  {
    if j.JObj? {
      PropertyErrorsEmpty(s, 0, j.fields, path);
      RequiredErrorsEmpty(s.required, 0, j.fields, path);
    }
  }

  /** A type-only schema accepts exactly the values of its type. */
  lemma KindOnlyValid(k: Kind, j: Json, path: seq<string>)
    ensures Errors(KindOnly(k), j, path) == [] <==> HasKind(j, k)
  {
    ValidIff(KindOnly(k), j, path);
  }

  /** A type-only member is fine exactly when it is absent or of its type. */
  lemma KindOnlyMember(p: Property, k: Kind, fields: map<string, Json>, path: seq<string>)
    requires p.schema == KindOnly(k)
    ensures MemberOk(p, fields, path) <==> (p.name in fields ==> HasKind(fields[p.name], k))
  {
    if p.name in fields {
      KindOnlyValid(k, fields[p.name], path + [p.name]);
    }
  }

  /** Member `i` of a valid object is fine. */
  lemma ValidMember(s: Schema, j: Json, path: seq<string>, i: nat)
    requires Errors(s, j, path) == [] && j.JObj? && i < |s.properties|
    ensures MemberOk(s.properties[i], j.fields, path)
  {
    ValidIff(s, j, path);
  }

  /** One step of `RequiredErrors`. */
  lemma RequiredStep(required: seq<string>, i: nat, fields: map<string, Json>, path: seq<string>)
    requires i < |required|
    ensures RequiredErrors(required, i, fields, path) == [] <==>
      required[i] in fields && RequiredErrors(required, i + 1, fields, path) == []
  {
  }

  /** One step of `PropertyErrors`: member `i` is fine and so are the rest. */
  lemma PropertyErrorsStep(s: Schema, i: nat, fields: map<string, Json>, path: seq<string>)
    requires i < |s.properties|
    requires MemberOk(s.properties[i], fields, path) && PropertyErrors(s, i + 1, fields, path) == []
    ensures PropertyErrors(s, i, fields, path) == []
  {
    var p := s.properties[i];
    var head := if p.name in fields then Errors(p.schema, fields[p.name], path + [p.name]) else [];
    assert head == [];
    assert PropertyErrors(s, i, fields, path) == head + PropertyErrors(s, i + 1, fields, path);
  }

  /** Every prompt-strategy object is valid against the nested schema. */
  lemma PromptStrategyIsValid(j: Json, path: seq<string>)
    requires IsPromptStrategy(j)
    ensures Errors(PromptStrategySchema, j, path) == []
  {
    var m, ps := j.fields, PromptStrategySchema.properties;
    KindOnlyMember(ps[0], ArrayKind, m, path);
    KindOnlyMember(ps[1], StringKind, m, path);
    KindOnlyMember(ps[2], StringKind, m, path);
    KindOnlyMember(ps[3], ArrayKind, m, path);
    PropertyErrorsStep(PromptStrategySchema, 3, m, path);
    PropertyErrorsStep(PromptStrategySchema, 2, m, path);
    PropertyErrorsStep(PromptStrategySchema, 1, m, path);
    PropertyErrorsStep(PromptStrategySchema, 0, m, path);
  }

  /** Everything the nested schema accepts is a prompt-strategy object. */
  lemma ValidIsPromptStrategy(j: Json, path: seq<string>)
    requires Errors(PromptStrategySchema, j, path) == []
    ensures IsPromptStrategy(j)
  {
    ValidIff(PromptStrategySchema, j, path);
    var m, ps := j.fields, PromptStrategySchema.properties;
    ValidMember(PromptStrategySchema, j, path, 0);
    ValidMember(PromptStrategySchema, j, path, 1);
    ValidMember(PromptStrategySchema, j, path, 2);
    ValidMember(PromptStrategySchema, j, path, 3);
    KindOnlyMember(ps[0], ArrayKind, m, path);
    KindOnlyMember(ps[1], StringKind, m, path);
    KindOnlyMember(ps[2], StringKind, m, path);
    KindOnlyMember(ps[3], ArrayKind, m, path);
  }

  /** The nested member of `SCHEMA` is fine exactly when it is absent or a
      prompt-strategy object. */
  lemma StrategyMember(m: map<string, Json>)
    ensures MemberOk(PlanSchema.properties[5], m, []) <==>
      ("ai_prompt_strategy" in m ==> IsPromptStrategy(m["ai_prompt_strategy"]))
  {
    var p := PlanSchema.properties[5];
    assert p.name == "ai_prompt_strategy" && p.schema == PromptStrategySchema;
    if p.name in m {
      PromptStrategyIff(m[p.name], [p.name]);
    }
  }

  /** The nested schema accepts exactly prompt-strategy objects. */
  lemma PromptStrategyIff(j: Json, path: seq<string>)
    ensures Errors(PromptStrategySchema, j, path) == [] <==> IsPromptStrategy(j)
  {
    if IsPromptStrategy(j) {
      PromptStrategyIsValid(j, path);
    }
    if Errors(PromptStrategySchema, j, path) == [] {
      ValidIsPromptStrategy(j, path);
    }
  }

  /** The shape member `i` of `SCHEMA` declares, when present: its type,
      and for `ai_prompt_strategy` the nested shape. */
  predicate DeclaredShape(m: map<string, Json>, i: nat)
    requires i < |PlanSchema.properties|
  {
    var p := PlanSchema.properties[i];
    p.name in m ==> if i == 5 then IsPromptStrategy(m[p.name]) else HasKind(m[p.name], p.schema.kind)
  }

  /** A member of `SCHEMA` raises no error exactly when it is absent or of
      its declared shape. */
  lemma PlanMemberIff(m: map<string, Json>, i: nat)
    requires i < |PlanSchema.properties|
    ensures MemberOk(PlanSchema.properties[i], m, []) <==> DeclaredShape(m, i)
  {
    var p := PlanSchema.properties[i];
    if i == 5 {
      StrategyMember(m);
    } else {
      assert p.schema == KindOnly(p.schema.kind);
      KindOnlyMember(p, p.schema.kind, m, []);
    }
  }

  /** All members of `SCHEMA` raise no error exactly when each is absent or
      of its declared shape. */
  lemma PlanMembersIff(m: map<string, Json>)
    ensures PropertyErrors(PlanSchema, 0, m, []) == [] <==>
      forall i :: 0 <= i < |PlanSchema.properties| ==> DeclaredShape(m, i)
  {
    PropertyErrorsEmpty(PlanSchema, 0, m, []);
    forall i | 0 <= i < |PlanSchema.properties|
      ensures MemberOk(PlanSchema.properties[i], m, []) <==> DeclaredShape(m, i)
    {
      PlanMemberIff(m, i);
    }
  }

  /** An object holding all twelve members, each of its declared shape, is
      a plan document. */
  lemma DeclaredShapesMakePlan(m: map<string, Json>)
    requires forall i :: 0 <= i < |PlanRequired| ==> PlanRequired[i] in m
    requires forall i :: 0 <= i < |PlanSchema.properties| ==> DeclaredShape(m, i)
    ensures IsPlanDocument(JObj(m))
  {
    assert PlanRequired[0] in m && PlanRequired[1] in m && PlanRequired[2] in m && PlanRequired[3] in m;
    assert PlanRequired[4] in m && PlanRequired[5] in m && PlanRequired[6] in m && PlanRequired[7] in m;
    assert PlanRequired[8] in m && PlanRequired[9] in m && PlanRequired[10] in m && PlanRequired[11] in m;
    assert DeclaredShape(m, 0) && DeclaredShape(m, 1) && DeclaredShape(m, 2) && DeclaredShape(m, 3);
    assert DeclaredShape(m, 4) && DeclaredShape(m, 5) && DeclaredShape(m, 6) && DeclaredShape(m, 7);
    assert DeclaredShape(m, 8) && DeclaredShape(m, 9) && DeclaredShape(m, 10) && DeclaredShape(m, 11);
  }

  /** Every member of a plan document has its declared shape. */
  lemma PlanHasDeclaredShapes(j: Json)
    requires IsPlanDocument(j)
    ensures forall i :: 0 <= i < |PlanSchema.properties| ==> DeclaredShape(j.fields, i)
  {
  }

  /** `required` of `SCHEMA` is met exactly when all twelve names are present. */
  lemma PlanRequiredMet(m: map<string, Json>)
    ensures RequiredErrors(PlanRequired, 0, m, []) == [] <==>
      && "project_specification" in m
      && "folder_structure" in m
      && "environment_variables" in m
      && "security_architecture" in m
      && "optimized_prompt" in m
      && "ai_prompt_strategy" in m
      && "interaction_plan" in m
      && "risks" in m
      && "ai_failure_cases" in m
      && "testing_checklist" in m
      && "refactor_advice" in m
      && "secret_hacks" in m
  {
    RequiredStep(PlanRequired, 11, m, []);
    RequiredStep(PlanRequired, 10, m, []);
    RequiredStep(PlanRequired, 9, m, []);
    RequiredStep(PlanRequired, 8, m, []);
    RequiredStep(PlanRequired, 7, m, []);
    RequiredStep(PlanRequired, 6, m, []);
    RequiredStep(PlanRequired, 5, m, []);
    RequiredStep(PlanRequired, 4, m, []);
    RequiredStep(PlanRequired, 3, m, []);
    RequiredStep(PlanRequired, 2, m, []);
    RequiredStep(PlanRequired, 1, m, []);
    RequiredStep(PlanRequired, 0, m, []);
  }

  /** `SCHEMA` and its nested schema list under `properties` exactly the
      names they require, in the same order, so no required member is left
      without a type and no typed member is optional (app.py:22-63). */
  lemma SchemasListWhatTheyRequire()
    ensures |PlanSchema.properties| == |PlanRequired| == 12 && PlanSchema.required == PlanRequired
    ensures forall i :: 0 <= i < 12 ==> PlanSchema.properties[i].name == PlanRequired[i]
    ensures |PromptStrategySchema.properties| == |PromptStrategySchema.required| == 4
    ensures forall i :: 0 <= i < 4 ==> PromptStrategySchema.properties[i].name == PromptStrategySchema.required[i]
  {
  }

  /** Every plan document passes `validate(instance=..., schema=SCHEMA)`. */
  lemma PlanDocumentIsValid(j: Json)
    requires IsPlanDocument(j)
    ensures IsValid(PlanSchema, j)
  {
    PlanRequiredMet(j.fields);
    PlanHasDeclaredShapes(j);
    PlanMembersIff(j.fields);
  }

  /** Everything that passes `validate(instance=..., schema=SCHEMA)` is a
      plan document. */
  lemma ValidIsPlanDocument(j: Json)
    requires IsValid(PlanSchema, j)
    ensures IsPlanDocument(j)
  {
    RequiredErrorsEmpty(PlanRequired, 0, j.fields, []);
    PlanMembersIff(j.fields);
    DeclaredShapesMakePlan(j.fields);
  }

  /** The schema interpreter applied to `SCHEMA` agrees with the shape
      written out by hand: validation passes exactly on plan documents. */
  lemma PlanSchemaMeansPlanDocument(j: Json)
    ensures IsValid(PlanSchema, j) <==> IsPlanDocument(j)
  {
    if IsValid(PlanSchema, j) {
      ValidIsPlanDocument(j);
    }
    if IsPlanDocument(j) {
      PlanDocumentIsValid(j);
    }
  }

  /** A required name missing from the object is reported at that
      object's path, so a value lacking it is never valid. */
  lemma {:induction false} MissingRequiredReported(required: seq<string>, from: nat, fields: map<string, Json>, path: seq<string>, i: nat)
    requires from <= i < |required| && required[i] !in fields
    ensures MissingKey(path, required[i]) in RequiredErrors(required, from, fields, path)
    decreases i - from
  {
    var head := if required[from] in fields then [] else [MissingKey(path, required[from])];
    var rest := RequiredErrors(required, from + 1, fields, path);
    assert RequiredErrors(required, from, fields, path) == head + rest;
    if from < i {
      MissingRequiredReported(required, from + 1, fields, path, i);
      assert MissingKey(path, required[i]) in rest;
    } else {
      assert head == [MissingKey(path, required[i])];
    }
  }

  /** A value of the wrong type is reported at its own path. */
  lemma WrongKindFirst(s: Schema, j: Json, path: seq<string>)
    requires !HasKind(j, s.kind)
    ensures WrongKind(path, s.kind) in Errors(s, j, path)
  {
    var rest := if j.JObj? then PropertyErrors(s, 0, j.fields, path) + RequiredErrors(s.required, 0, j.fields, path) else [];
    assert Errors(s, j, path) == [WrongKind(path, s.kind)] + rest;
    assert Errors(s, j, path)[0] == WrongKind(path, s.kind);
  }

  /** A listed member of the wrong type is reported at its own path. */
  lemma {:induction false} WrongKindReported(s: Schema, from: nat, fields: map<string, Json>, path: seq<string>, i: nat)
    requires from <= i < |s.properties|
    requires s.properties[i].name in fields
    requires !HasKind(fields[s.properties[i].name], s.properties[i].schema.kind)
    ensures WrongKind(path + [s.properties[i].name], s.properties[i].schema.kind) in PropertyErrors(s, from, fields, path)
    decreases i - from
  {
    var p := s.properties[from];
    var head := if p.name in fields then Errors(p.schema, fields[p.name], path + [p.name]) else [];
    var rest := PropertyErrors(s, from + 1, fields, path);
    assert PropertyErrors(s, from, fields, path) == head + rest;
    var e := WrongKind(path + [s.properties[i].name], s.properties[i].schema.kind);
    if from < i {
      WrongKindReported(s, from + 1, fields, path, i);
      assert e in rest;
    } else {
      WrongKindFirst(p.schema, fields[p.name], path + [p.name]);
      assert e in head;
    }
  }

  /** Errors found under `properties` or `required` are errors of the object. */
  lemma ObjectErrorsIncluded(s: Schema, fields: map<string, Json>, path: seq<string>, e: Violation)
    requires e in PropertyErrors(s, 0, fields, path) || e in RequiredErrors(s.required, 0, fields, path)
    ensures e in Errors(s, JObj(fields), path)
  {
    var props := PropertyErrors(s, 0, fields, path);
    var reqs := RequiredErrors(s.required, 0, fields, path);
    var typeErrs := if HasKind(JObj(fields), s.kind) then [] else [WrongKind(path, s.kind)];
    assert Errors(s, JObj(fields), path) == typeErrs + (props + reqs);
    assert e in props + reqs;
  }

  /** Dropping any of the twelve required members is reported as that
      missing member and makes the document invalid. */
  lemma PlanMissingMemberReported(m: map<string, Json>, i: nat)
    requires i < |PlanRequired| && PlanRequired[i] !in m
    ensures MissingKey([], PlanRequired[i]) in Errors(PlanSchema, JObj(m), [])
    ensures !IsValid(PlanSchema, JObj(m))
  {
    MissingRequiredReported(PlanSchema.required, 0, m, [], i);
    ObjectErrorsIncluded(PlanSchema, m, [], MissingKey([], PlanRequired[i]));
  }

  /** A top-level member of the wrong type is reported at its name and makes
      the document invalid. */
  lemma PlanWrongKindReported(m: map<string, Json>, i: nat)
    requires i < |PlanSchema.properties|
    requires PlanSchema.properties[i].name in m
    requires !HasKind(m[PlanSchema.properties[i].name], PlanSchema.properties[i].schema.kind)
    ensures WrongKind([PlanSchema.properties[i].name], PlanSchema.properties[i].schema.kind) in Errors(PlanSchema, JObj(m), [])
    ensures !IsValid(PlanSchema, JObj(m))
  {
    WrongKindReported(PlanSchema, 0, m, [], i);
    assert [] + [PlanSchema.properties[i].name] == [PlanSchema.properties[i].name];
    ObjectErrorsIncluded(PlanSchema, m, [], WrongKind([PlanSchema.properties[i].name], PlanSchema.properties[i].schema.kind));
  }

  /** A document that is not an object yields the single type error. */
  lemma NonObjectRejected(j: Json)
    requires !j.JObj?
    ensures Errors(PlanSchema, j, []) == [WrongKind([], ObjectKind)]
  {
  }

  /** Whether a name is listed under `properties` of `s`. */
  predicate Listed(s: Schema, name: string)
  {
    exists i :: 0 <= i < |s.properties| && s.properties[i].name == name
  }

  /** Members that are neither listed nor required do not change the errors. */
  lemma {:induction false} UnlistedPropertyIgnored(s: Schema, from: nat, fields: map<string, Json>, path: seq<string>, key: string, v: Json)
    requires from <= |s.properties| && !Listed(s, key)
    ensures PropertyErrors(s, from, fields[key := v], path) == PropertyErrors(s, from, fields, path)
    decreases |s.properties| - from
  {
    if from < |s.properties| {
      UnlistedPropertyIgnored(s, from + 1, fields, path, key, v);
    }
  }

  lemma {:induction false} UnrequiredKeyIgnored(required: seq<string>, from: nat, fields: map<string, Json>, path: seq<string>, key: string, v: Json)
    requires from <= |required| && key !in required
    ensures RequiredErrors(required, from, fields[key := v], path) == RequiredErrors(required, from, fields, path)
    decreases |required| - from
  {
    if from < |required| {
      UnrequiredKeyIgnored(required, from + 1, fields, path, key, v);
    }
  }

  /** Adding or changing a member that the schema neither lists nor requires
      leaves the errors, hence validity, unchanged. */
  lemma UnlistedKeyIgnored(s: Schema, fields: map<string, Json>, path: seq<string>, key: string, v: Json)
    requires !Listed(s, key) && key !in s.required
    ensures Errors(s, JObj(fields[key := v]), path) == Errors(s, JObj(fields), path)
  {
    UnlistedPropertyIgnored(s, 0, fields, path, key, v);
    UnrequiredKeyIgnored(s.required, 0, fields, path, key, v);
  }
}
