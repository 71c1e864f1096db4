/** The JavaScript values that a JSON response body can decode to. */
module Json {
  import opened Wrappers

  datatype Value =
    | Null
    | Bool(b: bool)
    | Number(n: real)
    | Str(s: string)
    | Array(items: seq<Value>)
    | Object(fields: map<string, Value>)

  /**
   * JavaScript truthiness: `null`, `false`, `0` and `""` are falsy, every
   * array and object is truthy. A JSON body cannot carry NaN.
   */
  predicate Truthy(v: Value)
    ensures !Truthy(v) <==> v == Null || v == Bool(false) || v == Number(0.0) || v == Str("")
  {
    match v
    case Null => false
    case Bool(b) => b
    case Number(n) => n != 0.0
    case Str(s) => s != ""
    case Array(_) => true
    case Object(_) => true
  }

  /**
   * Property access `v.name` on a value that is not `null`, for a property
   * name that no built-in prototype defines: the member of an object, and
   * `undefined` (None) on every other kind of value. (On `null` the access
   * throws a TypeError, so it is excluded here.)
   */
  function Property(v: Value, name: string): (r: Option<Value>)
    requires !v.Null?
    ensures r.Some? <==> v.Object? && name in v.fields
    ensures r.Some? ==> r.value == v.fields[name]
  {
    if v.Object? && name in v.fields then Some(v.fields[name]) else None
  }

  /** Truthiness of `v.name`; `undefined` is falsy. */
  predicate TruthyProperty(v: Value, name: string)
    requires !v.Null?
  {
    match Property(v, name)
    case None => false
    case Some(x) => Truthy(x)
  }
}
