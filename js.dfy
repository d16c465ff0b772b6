/**
 * The slice of JavaScript's value semantics that the signup handler and the
 * error classifier depend on: parsed JSON values, truthiness, property access
 * (which throws on `undefined` and `null`), and strict equality.
 */
module Js {
  import opened Wrappers

  /** A JavaScript value as it arrives from `request.json()` or in a `catch` clause. Numbers are integers here. */
  datatype Value =
    | Undefined
    | Null
    | Bool(b: bool)
    | Num(n: int)
    | Str(s: string)
    | Array(elems: seq<Value>)
    | Object(props: map<string, Value>)

  /** JavaScript truthiness: `undefined`, `null`, `false`, `0` and `""` are falsy, everything else (an empty array too) is truthy. */
  predicate Truthy(v: Value) {
    match v
    case Undefined => false
    case Null => false
    case Bool(b) => b
    case Num(n) => n != 0
    case Str(s) => s != ""
    case Array(_) => true
    case Object(_) => true
  }

  /**
   * `v.key`. `None` stands for the `TypeError` that reading a property of
   * `undefined` or `null` throws; a missing property reads as `undefined`, and
   * the only property of a primitive or an array that the model knows is the
   * `length` of a string or an array.
   */
  function Member(v: Value, key: string): (r: Option<Value>)
    ensures r.None? <==> v.Undefined? || v.Null?
    ensures v.Object? ==> r == Some(if key in v.props then v.props[key] else Undefined)
    ensures v.Str? && key == "length" ==> r == Some(Num(|v.s|))
    ensures v.Array? && key == "length" ==> r == Some(Num(|v.elems|))
    ensures !v.Object? && key != "length" && r.Some? ==> r.value.Undefined?
  {
    match v
    case Undefined => None
    case Null => None
    case Object(m) => Some(if key in m then m[key] else Undefined)
    case Str(s) => Some(if key == "length" then Num(|s|) else Undefined)
    case Array(es) => Some(if key == "length" then Num(|es|) else Undefined)
    case _ => Some(Undefined)
  }

  /** `v.key` where the access is known not to throw (`undefined` otherwise). */
  function Prop(v: Value, key: string): (r: Value)
    ensures Member(v, key).Some? ==> r == Member(v, key).value
  {
    Member(v, key).GetOr(Undefined)
  }

  /** Arrays and objects, which `===` compares by reference. */
  predicate IsReference(v: Value) {
    v.Array? || v.Object?
  }

  /**
   * `a === b`. Arrays and objects are compared by reference; every one the
   * model meets was freshly parsed from JSON, so two are never the same reference.
   */
  predicate StrictEquals(a: Value, b: Value) {
    !IsReference(a) && a == b
  }

  /** `===` on primitives is value equality, and an array or object is never `===` to anything the model holds. */
  lemma StrictEqualsMeaning(a: Value, b: Value)
    ensures StrictEquals(a, b) ==> a == b
    ensures IsReference(a) || IsReference(b) ==> !StrictEquals(a, b)
    ensures !IsReference(a) ==> (StrictEquals(a, b) <==> a == b)
  {
  }
}
