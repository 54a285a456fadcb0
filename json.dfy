/**
 * The JSON values the envelope carries (`serde_json::Value`). An object is a
 * map from key to value. serde_json fixes key order by its map type (sorted by
 * default, insertion order with `preserve_order`); that order is left to the
 * serializer parameter.
 */
module Json {

  datatype Value =
    | Null
    | Bool(boolean: bool)
    | Int(integer: int)
    | Float(float: real)
    | Str(text: string)
    | Array(items: seq<Value>)
    | Object(fields: map<string, Value>)

  const EmptyObject: Value := Object(map[])

  /** A JSON array of JSON strings, one per element of `xs`, in order. */
  function Strings(xs: seq<string>): (vs: seq<Value>)
    ensures |vs| == |xs|
    ensures forall i :: 0 <= i < |xs| ==> vs[i] == Str(xs[i])
  {
    if xs == [] then [] else [Str(xs[0])] + Strings(xs[1..])
  }

  lemma StringsInjective(xs: seq<string>, ys: seq<string>)
    ensures Strings(xs) == Strings(ys) <==> xs == ys
  {
  }
}
