/**
 * The JSON-like values the component exchanges with the CRM, together with the
 * few PHP array semantics the component relies on: truthiness, `isset` and
 * reading an index that may be missing.
 *
 * PHP arrays that the component builds with string keys are modelled as
 * `Object`s (a map, so insertion order is not modelled); arrays built as lists
 * (`[$data]`, `[$leadId]`, the `custom_fields` lists) are `List`s.
 */
module Json {

  datatype Json =
    | Null
    | Bool(b: bool)
    | Int(i: int)
    | Str(s: string)
    | List(items: seq<Json>)
    | Object(fields: map<string, Json>)

  /** A payload handed to the CRM: a PHP array with string keys. */
  type Payload = map<string, Json>

  /**
   * PHP's conversion to boolean, as used by `if ($x)`: null, false, 0, "",
   * "0" and the empty array are false; everything else is true.
   */
  predicate Truthy(v: Json)
    ensures Truthy(v) ==> v != Null && v != Bool(false)
  {
    match v
    case Null => false
    case Bool(b) => b
    case Int(i) => i != 0
    case Str(s) => s != "" && s != "0"
    case List(items) => |items| > 0
    case Object(fields) => |fields| > 0
  }

  /** PHP's `isset($p[key])`: the key is present and does not hold null. */
  predicate IsSet(p: Payload, key: string) {
    key in p && p[key] != Null
  }

  /**
   * `$v[key]` on a decoded response: the value under `key` when `v` is an
   * array that has it, and null (with a PHP notice) otherwise.
   */
  function At(v: Json, key: string): (r: Json)
    ensures r != Null ==> v.Object? && key in v.fields && v.fields[key] == r
    ensures v.Object? && key in v.fields ==> r == v.fields[key]
  {
    if v.Object? && key in v.fields then v.fields[key] else Null
  }

  /**
   * `$v[0]` on a decoded response: the first element of a list, or the entry
   * under the key "0" of an object (PHP casts that key to the integer 0), and
   * null otherwise.
   */
  function First(v: Json): (r: Json)
    ensures v.List? && |v.items| > 0 ==> r == v.items[0]
    ensures v.Object? ==> r == At(v, "0")
    ensures (v.List? && |v.items| == 0) || v.Null? || v.Bool? || v.Int? ==> r == Null
  {
    match v
    case List(items) => if |items| > 0 then items[0] else Null
    case Object(_) => At(v, "0")
    case _ => Null
  }
}
