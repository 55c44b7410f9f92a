/**
 * JSON documents as the hooks see them after JSON.parse, with the two
 * JavaScript tests the bootstrap code applies to them.
 */
module JsonValues {

  /** A parsed JSON document. Numbers are integers; records are keyed by field name. */
  datatype Json =
    | Null
    | Bool(b: bool)
    | Num(n: int)
    | Str(s: string)
    | Arr(items: seq<Json>)
    | Obj(fields: map<string, Json>)

  /** The JSON values that JavaScript's `if (v)` rejects. */
  const Falsy: set<Json> := {Null, Bool(false), Num(0), Str("")}

  /** JavaScript truthiness of a JSON value: empty arrays and empty records are truthy. */
  function Truthy(v: Json): (t: bool)
    ensures t <==> v !in Falsy
  {
    match v
    case Null => false
    case Bool(b) => b
    case Num(n) => n != 0
    case Str(s) => s != ""
    case Arr(_) => true
    case Obj(_) => true
  }

  /** `typeof v === 'object'`: true for records, for arrays and for null. */
  predicate IsObjectTyped(v: Json)
  {
    v.Null? || v.Arr? || v.Obj?
  }
}
