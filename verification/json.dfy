/** JSON values as the Python `json` module hands them to the optimizer
    (app.py), together with Python's truthiness rule for them. */
module JsonModel {

  /** A value that may be absent. `None` stands for Python's `None` result of
      a failed extraction. */
  datatype Option<+T> = None | Some(value: T)

  /** A decoded JSON document. Integers and floats are kept apart because
      `json.loads` yields `int` for integral literals and `float` otherwise;
      objects are dictionaries keyed by member name (the last duplicate wins,
      as in `json.loads`). */
  datatype Json =
    | JNull
    | JBool(b: bool)
    | JInt(i: int)
    | JFloat(r: real)
    | JStr(s: string)
    | JArr(items: seq<Json>)
    | JObj(fields: map<string, Json>)

  /** Python's `bool(v)` for a decoded value: `None`, `False`, `0`, `0.0`,
      `""`, `[]` and `{}` are false, everything else is true. */
  predicate Truthy(v: Json)
  {
    match v
    case JNull => false
    case JBool(b) => b
    case JInt(i) => i != 0
    case JFloat(r) => r != 0.0
    case JStr(s) => |s| > 0
    case JArr(items) => |items| > 0
    case JObj(fields) => |fields| > 0
  }

  /** `if x:` on the result of an extraction, which may be `None`. */
  predicate Present(x: Option<Json>)
  {
    x.Some? && Truthy(x.value)
  }

  /** The value stored into a document when a result is assigned to a key:
      a missing extraction is stored as `None`, which serialises as `null`. */
  function OrNull(x: Option<Json>): (v: Json)
    ensures x.Some? ==> v == x.value
    ensures x.None? ==> v == JNull
    ensures Truthy(v) <==> Present(x)
  {
    match x
    case Some(j) => j
    case None => JNull
  }

  /** Python's falsy values, listed: `None`, `False`, `0`, `0.0`, `""`, `[]`
      and `{}` are the only values `if` rejects. */
  lemma FalsyValues(v: Json)
    ensures !Truthy(v) <==>
      v == JNull || v == JBool(false) || v == JInt(0) || v == JFloat(0.0)
      || v == JStr("") || v == JArr([]) || v == JObj(map[])
  {
    if v.JObj? && |v.fields| == 0 {
      assert v.fields == map[];
    }
  }

  /** A lookup passes the `if not x` test unless it is missing or falsy. */
  lemma AbsentOrFalsy(x: Option<Json>)
    ensures !Present(x) <==>
      x == None || x == Some(JNull) || x == Some(JBool(false)) || x == Some(JInt(0)) || x == Some(JFloat(0.0))
      || x == Some(JStr("")) || x == Some(JArr([])) || x == Some(JObj(map[]))
  {
    if x.Some? {
      FalsyValues(x.value);
    }
  }
}
