/**
 * Plain JavaScript data as the cake designer and the shop handle it: the
 * values that survive a JSON round trip, JavaScript truthiness and the `||`
 * defaulting idiom the source uses everywhere, property access, and the
 * TypeErrors the source can raise.
 */
module Js {

  datatype Option<+T> = None | Some(value: T)

  datatype Result<+T, +E> = Success(value: T) | Failure(error: E)

  /** A JSON value. `undefined` is not a value here: a field that is undefined
      is an absent field, written `None` wherever an `Option<Json>` is used. */
  datatype Json =
    | JNull
    | JBool(b: bool)
    | JNum(n: real)
    | JStr(s: string)
    | JArr(items: seq<Json>)
    | JObj(fields: map<string, Json>)

  /** The exceptions the modelled code can throw. */
  datatype Error =
    | PropertyOfNothing(property: string)  // reading a property of null or undefined
    | NotAFunction(name: string)            // calling a method the object does not have

  /** JavaScript truthiness of a possibly undefined value. */
  predicate Truthy(v: Option<Json>)
  {
    match v
    case None => false
    case Some(JNull) => false
    case Some(JBool(b)) => b
    case Some(JNum(n)) => n != 0.0
    case Some(JStr(s)) => s != ""
    case Some(JArr(_)) => true
    case Some(JObj(_)) => true
  }

  /** `a || b`: the first operand when it is truthy, otherwise the second,
      which may itself be undefined. The result is truthy exactly when one
      of the operands is. */
  function OrElse(a: Option<Json>, b: Option<Json>): (r: Option<Json>)
    ensures Truthy(a) ==> r == a
    ensures !Truthy(a) ==> r == b
    ensures Truthy(r) <==> Truthy(a) || Truthy(b)
  {
    if Truthy(a) then a else b
  }

  /** `v || d` with a defined default: never undefined. */
  function Or(v: Option<Json>, d: Json): (r: Json)
    ensures Truthy(v) ==> Some(r) == v
    ensures !Truthy(v) ==> r == d
  {
    OrElse(v, Some(d)).value
  }

  /** `typeof v === 'object'` for a truthy value: arrays and objects. */
  predicate IsObject(v: Option<Json>)
  {
    v.Some? && (v.value.JArr? || v.value.JObj?)
  }

  /** `v.key` on a value that is not null or undefined: only plain objects have
      named properties (an array, a string or a number reads as undefined). */
  function Get(v: Option<Json>, key: string): (r: Option<Json>)
    ensures r.Some? ==> v.Some? && v.value.JObj? && key in v.value.fields
  {
    if v.Some? && v.value.JObj? && key in v.value.fields then Some(v.value.fields[key]) else None
  }

  /** `v` is null or undefined, so that `v.key` throws. */
  predicate Nullish(v: Option<Json>)
  {
    v.None? || v.value.JNull?
  }

  /** A string-valued optional field is truthy: present and non-empty. */
  predicate Filled(s: Option<string>)
  {
    s.Some? && s.value != ""
  }

  /** `s || d` for an optional string. */
  function OrStr(s: Option<string>, d: string): (r: string)
    ensures Filled(s) ==> r == s.value
    ensures !Filled(s) ==> r == d
  {
    if Filled(s) then s.value else d
  }
}
