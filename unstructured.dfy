/** The untyped object representation (k8s.io/apimachinery unstructured):
    a JSON-like value tree, the nested-field accessors the helpers use on it,
    and the `Unstructured` wrapper whose `Object` map is updated in place. */
module Unstructured {
  import opened Errors

  /** A JSON value as decoded into Go's interface{}: nil, bool, an integer,
      a string, []interface{} or map[string]interface{}. */
  datatype Json =
    | JNull
    | JBool(b: bool)
    | JInt(i: int)
    | JStr(s: string)
    | JList(items: seq<Json>)
    | JObj(fields: Object)

  type Object = map<string, Json>

  /** unstructured.Unstructured: a pointer to an object whose map is replaced
      when a nested field is written. */
  class Unstructured {
    var obj: Object

    constructor (obj: Object)
      ensures this.obj == obj
    {
      this.obj := obj;
    }
  }

  /** NestedFieldNoCopy: follows `fields` through nested maps. None stands for
      every failure: a missing key, a null on the way (found = false), and a
      value on the way that is not a map (found = false with an error). */
  function NestedField(obj: Object, fields: seq<string>): Option<Json>
    requires |fields| > 0
    decreases |fields|
  {
    if fields[0] !in obj then None
    else if |fields| == 1 then Some(obj[fields[0]])
    else match obj[fields[0]]
      case JObj(m) => NestedField(m, fields[1..])
      case _ => None
  }

  /** NestedSlice: the list at `fields`. Every failure, including a value
      there that is not a list, comes back with found = false, which is what
      None stands for. */
  function NestedSlice(obj: Object, fields: seq<string>): Option<seq<Json>>
    requires |fields| > 0
  {
    match NestedField(obj, fields)
    case Some(JList(xs)) => Some(xs)
    case _ => None
  }

  /** SetNestedField: writes `value` at `fields`, creating an empty map for
      every missing or null key on the way; fails when a value on the way is
      not a map. */
  function SetNestedField(obj: Object, value: Json, fields: seq<string>): Result<Object>
    requires |fields| > 0
    decreases |fields|
  {
    var f := fields[0];
    if |fields| == 1 then Ok(obj[f := value])
    else
      var inner :=
        if f in obj && !obj[f].JNull? then
          (if obj[f].JObj? then Ok(obj[f].fields) else Err(FieldNotMap))
        else Ok(map[]);
      match inner
      case Err(e) => Err(e)
      case Ok(m) =>
        match SetNestedField(m, value, fields[1..])
        case Err(e) => Err(e)
        case Ok(m') => Ok(obj[f := JObj(m')])
  }

  /** SetNestedSlice: SetNestedField with a list value. */
  function SetNestedSlice(obj: Object, items: seq<Json>, fields: seq<string>): Result<Object>
    requires |fields| > 0
  {
    SetNestedField(obj, JList(items), fields)
  }

  /** Two paths that part ways at some position address disjoint fields. */
  predicate Diverge(p: seq<string>, q: seq<string>) {
    exists i :: 0 <= i < |p| && i < |q| && p[i] != q[i]
  }

  /** Writing where a read succeeded cannot fail, and reading back gives
      exactly the value written. */
  lemma {:induction false} SetWhereFound(obj: Object, value: Json, fields: seq<string>)
    requires |fields| > 0
    requires NestedField(obj, fields).Some?
    ensures SetNestedField(obj, value, fields).Ok?
    ensures NestedField(SetNestedField(obj, value, fields).value, fields) == Some(value)
    ensures SetNestedField(obj, value, fields).value.Keys == obj.Keys
    decreases |fields|
  {
    if |fields| > 1 {
      SetWhereFound(obj[fields[0]].fields, value, fields[1..]);
    }
  }

  /** A second write at the same existing path overrides the first. */
  lemma {:induction false} SetTwice(obj: Object, v: Json, w: Json, fields: seq<string>)
    requires |fields| > 0
    requires NestedField(obj, fields).Some?
    ensures SetNestedField(obj, v, fields).Ok?
    ensures SetNestedField(SetNestedField(obj, v, fields).value, w, fields) == SetNestedField(obj, w, fields)
    decreases |fields|
  {
    SetWhereFound(obj, v, fields);
    if |fields| == 1 {
      assert obj[fields[0] := v][fields[0] := w] == obj[fields[0] := w];
    } else {
      var f, m := fields[0], obj[fields[0]].fields;
      SetTwice(m, v, w, fields[1..]);
      SetWhereFound(m, w, fields[1..]);
      var m1 := SetNestedField(m, v, fields[1..]).value;
      assert SetNestedField(obj, v, fields).value == obj[f := JObj(m1)];
      var inner := SetNestedField(m1, w, fields[1..]);
      assert inner == SetNestedField(m, w, fields[1..]);
      assert obj[f := JObj(m1)][f := JObj(inner.value)] == obj[f := JObj(inner.value)];
    }
  }

  /** Writing one path leaves every field on a diverging path as it was. */
  lemma {:induction false} SetKeepsOtherFields(obj: Object, value: Json, p: seq<string>, q: seq<string>)
    requires |p| > 0 && |q| > 0
    requires NestedField(obj, p).Some?
    requires Diverge(p, q)
    ensures SetNestedField(obj, value, p).Ok?
    ensures NestedField(SetNestedField(obj, value, p).value, q) == NestedField(obj, q)
    decreases |p|
  {
    SetWhereFound(obj, value, p);
    if p[0] != q[0] {
    } else {
      var k :| 0 <= k < |p| && k < |q| && p[k] != q[k];
      assert k > 0;
      assert |p| > 1 && |q| > 1;
      assert p[1..][k - 1] != q[1..][k - 1];
      SetKeepsOtherFields(obj[p[0]].fields, value, p[1..], q[1..]);
    }
  }
}
