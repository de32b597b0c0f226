/** JSON values as exchanged with the remote service, and JavaScript truthiness on them. */
module Json {

  import opened Wrappers

  /** A parsed JSON document. Numbers are integers here (see the README). */
  datatype Value =
    | Null
    | Bool(b: bool)
    | Num(n: int)
    | Str(s: string)
    | Arr(items: seq<Value>)
    | Obj(fields: map<string, Value>)

  /** JavaScript's `if (v)` test on a JSON value: `null`, `false`, `0` and `""` are falsy. */
  function Truthy(v: Value): (r: bool)
    ensures !r <==> v == Null || v == Bool(false) || v == Num(0) || v == Str("")
  {
    match v
    case Null => false
    case Bool(b) => b
    case Num(n) => n != 0
    case Str(s) => s != ""
    case Arr(_) => true
    case Obj(_) => true
  }

  /** Property access `v.name` for a name that no string, array or built-in prototype
      carries (such as `date2`): the field of an object, `undefined` (None) for anything
      else. Access on `null` throws in JavaScript; callers check for `Null` first. */
  function Field(v: Value, name: string): (r: Option<Value>)
    ensures r.Some? <==> v.Obj? && name in v.fields
    ensures r.Some? ==> r.value == v.fields[name]
  {
    if v.Obj? && name in v.fields then Some(v.fields[name]) else None
  }
}
