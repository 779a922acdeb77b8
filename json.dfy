/** A `serde_json::Value`. Numbers are integers; floating point is not modelled. */
module Json {

  datatype Json =
    | Null
    | Bool(b: bool)
    | Num(n: int)
    | Str(s: string)
    | Arr(items: seq<Json>)
    | Obj(fields: map<string, Json>)

  /** `value[key]`: the field of an object, and null when `value` is not an object or lacks `key`. */
  function Get(value: Json, key: string): Json {
    if value.Obj? && key in value.fields then value.fields[key] else Null
  }

  /** A JSON array of strings. */
  function Strs(items: seq<string>): (r: Json)
    ensures r.Arr? && |r.items| == |items|
    ensures forall i :: 0 <= i < |items| ==> r.items[i] == Str(items[i])
  {
    Arr(seq(|items|, i requires 0 <= i < |items| => Str(items[i])))
  }
}
