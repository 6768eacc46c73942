/**
 * The JavaScript values the client reads out of response bodies: what a JSON
 * body parses to, plus `undefined`, which a property read yields for a field
 * the body does not have.
 */
module JsValues {
  import opened Wrappers

  /** Numbers are JSON numbers restricted to integers (see README, "Left out"). */
  datatype Value =
    | Undefined
    | Null
    | Bool(b: bool)
    | Num(n: int)
    | Str(s: string)
    | Arr(elems: seq<Value>)
    | Obj(fields: map<string, Value>)

  /** JavaScript truthiness: empty strings, zero, false, null and undefined are falsy;
      arrays and objects are truthy even when empty. */
  predicate Truthy(v: Value) {
    match v
    case Undefined => false
    case Null => false
    case Bool(b) => b
    case Num(n) => n != 0
    case Str(s) => s != ""
    case Arr(_) => true
    case Obj(_) => true
  }

  /** The values whose properties cannot be read. */
  predicate Nullish(v: Value) {
    v.Undefined? || v.Null?
  }

  /** `a || b`: the first operand when it is truthy, otherwise the second. */
  function Or(a: Value, b: Value): (r: Value)
    ensures Truthy(a) ==> r == a
    ensures !Truthy(a) ==> r == b
    ensures Truthy(r) <==> Truthy(a) || Truthy(b)
  {
    if Truthy(a) then a else b
  }

  /** The property `key` of a value that is not nullish: an own field of an object,
      `undefined` for anything else.  None of the keys the client reads is an
      inherited property of strings, numbers, arrays or objects. */
  function Field(v: Value, key: string): Value {
    match v
    case Obj(fields) => if key in fields then fields[key] else Undefined
    case _ => Undefined
  }

  /** What an operation throws: an `Error` built from a value, or the `TypeError`
      the JavaScript runtime raises when a property of null/undefined is read or
      a method that the value does not have is called. */
  datatype Thrown = Error(message: Value) | TypeError

  /** `v.key`, which throws on null and undefined. */
  function Member(v: Value, key: string): (r: Result<Value, Thrown>)
    ensures r.Failure? <==> Nullish(v)
    ensures r.Failure? ==> r.error == TypeError
    ensures r.Success? ==> r.value == Field(v, key)
  {
    if Nullish(v) then Failure(TypeError) else Success(Field(v, key))
  }
}
