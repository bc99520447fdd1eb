/**
 * The loosely-typed values a widget record and its embedded JSON can hold,
 * and JavaScript's truthiness rules on them (the `||` defaulting used by the
 * renderer and the sync hook).
 */
module Values {
  import opened Wrappers

  /** A JSON-like value. Numbers are integers: floating point is not modelled. */
  datatype Value =
    | Null
    | Bool(b: bool)
    | Num(n: int)
    | Str(s: string)
    | Arr(items: seq<Value>)
    | Obj(fields: map<string, Value>)

  /** JavaScript truthiness: `null`, `false`, `0` and `""` are falsy; arrays and objects never are. */
  predicate Truthy(v: Value) {
    match v
    case Null => false
    case Bool(b) => b
    case Num(n) => n != 0
    case Str(s) => s != ""
    case Arr(_) => true
    case Obj(_) => true
  }

  /** Truthiness of a field read that may find nothing (`undefined`). */
  predicate Present(v: Option<Value>) {
    v.Some? && Truthy(v.value)
  }

  /** `v || d`: the stored value when it is truthy, the default otherwise. */
  function Or(v: Option<Value>, d: Value): (r: Value)
    ensures Present(v) ==> r == v.value
    ensures !Present(v) ==> r == d
    ensures Truthy(d) ==> Truthy(r)
  {
    if Present(v) then v.value else d
  }

  /** Defaulting twice with the same truthy default changes nothing more. */
  lemma OrIdempotent(v: Option<Value>, d: Value)
    requires Truthy(d)
    ensures Or(Some(Or(v, d)), d) == Or(v, d)
  {
  }
}
