/** The untyped JavaScript values a tool call can receive as its `arguments`,
    with the two language operations the argument guard relies on:
    `typeof` and truthiness (`!v`). */
module Json {

  /** A JSON-like JavaScript value. Numbers are modelled as integers. */
  datatype Json =
    | Undefined
    | Null
    | Bool(b: bool)
    | Num(n: int)
    | Str(s: string)
    | Arr(items: seq<Json>)
    | Obj(fields: map<string, Json>)

  /** JavaScript's `typeof v`; note that `typeof null` is "object". */
  function TypeOf(v: Json): (t: string)
    ensures t == "object" <==> v.Null? || v.Arr? || v.Obj?
    ensures t == "string" <==> v.Str?
  {
    match v
    case Undefined => "undefined"
    case Null => "object"
    case Bool(_) => "boolean"
    case Num(_) => "number"
    case Str(_) => "string"
    case Arr(_) => "object"
    case Obj(_) => "object"
  }

  /** JavaScript truthiness: `undefined`, `null`, `false`, `0` and `""` are falsy,
      every object (arrays included) is truthy. */
  predicate Truthy(v: Json) {
    match v
    case Undefined => false
    case Null => false
    case Bool(b) => b
    case Num(n) => n != 0
    case Str(s) => s != ""
    case Arr(_) => true
    case Obj(_) => true
  }

  /** Reading the named property `key` of an object value (`(v as Record)[key]`):
      `undefined` when the object has no such own property. Arrays carry no
      named properties in this model. */
  function Property(v: Json, key: string): (r: Json)
    requires v.Obj? || v.Arr?
    ensures v.Obj? && key in v.fields ==> r == v.fields[key]
    ensures !(v.Obj? && key in v.fields) ==> r.Undefined?
  {
    match v
    case Obj(fields) => if key in fields then fields[key] else Undefined
    case Arr(_) => Undefined
  }

  /** The guard `!v || typeof v !== 'object'` rejects exactly the values that
      are neither arrays nor objects: `null` passes the `typeof` test but is
      stopped by the falsiness test. */
  lemma ObjectGuard(v: Json)
    ensures (!Truthy(v) || TypeOf(v) != "object") <==> !(v.Arr? || v.Obj?)
  {
  }
}
