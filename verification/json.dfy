/** The loosely-typed values that arrive from JSON: request bodies, status
    rows' `case_details`, server replies. JSON has no `NaN` or `Infinity`, so
    every `Num` is finite; `undefined` (a missing property) reads as `Null`. */
module JsonValue {
  import opened Base

  datatype Json =
    | Null
    | Bool(b: bool)
    | Num(n: real)
    | Str(s: string)
    | Arr(items: seq<Json>)
    | Obj(fields: seq<(string, Json)>)

  /** The value bound to `k` among `fields`; a repeated key keeps its last
      binding, as `JSON.parse` does. */
  function FieldOf(fields: seq<(string, Json)>, k: string): (r: Option<Json>)
    ensures r.Some? <==> exists i :: 0 <= i < |fields| && fields[i].0 == k
    ensures r.Some? ==> exists i :: 0 <= i < |fields| && fields[i] == (k, r.value)
  {
    if |fields| == 0 then None
    else if fields[|fields| - 1].0 == k then Some(fields[|fields| - 1].1)
    else FieldOf(fields[..|fields| - 1], k)
  }

  /** `v[k]` for a property name `k`: only objects carry the names this
      system reads, so anything else yields `undefined`. */
  function Get(v: Json, k: string): (r: Json)
    ensures r != Null ==> v.Obj? && r < v
  {
    if v.Obj? && FieldOf(v.fields, k).Some? then
      var w := FieldOf(v.fields, k).value;
      ghost var i :| 0 <= i < |v.fields| && v.fields[i] == (k, w);
      assert v.fields[i] in v.fields;
      w
    else
      Null
  }

  /** JavaScript truthiness. */
  predicate Truthy(v: Json) {
    match v
    case Null => false
    case Bool(b) => b
    case Num(n) => n != 0.0
    case Str(s) => s != ""
    case Arr(_) => true
    case Obj(_) => true
  }
}
