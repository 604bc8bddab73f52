/** The JavaScript values the domain layer receives from callers and from the server, and the
    few language rules the domain code relies on: truthiness, property reads, `||` and
    lodash's `isNil`. */
module JsValues {

  /** A JavaScript Date: a time in milliseconds since the epoch, or the invalid date. */
  datatype Date = At(millis: int) | InvalidDate

  /** A JavaScript value as far as the domain layer looks at it. Numbers are integers here;
      `Obj` lists an object's own properties; `DateV` is a Date object. */
  datatype Value =
    | Undefined
    | Null
    | Bool(b: bool)
    | Num(n: int)
    | Str(s: string)
    | Arr(items: seq<Value>)
    | Obj(props: map<string, Value>)
    | DateV(date: Date)

  /** JavaScript truthiness: `undefined`, `null`, `false`, `0` and `''` are falsy; every object,
      array and Date is truthy. */
  predicate Truthy(v: Value) {
    match v
    case Undefined => false
    case Null => false
    case Bool(b) => b
    case Num(n) => n != 0
    case Str(s) => s != ""
    case _ => true
  }

  /** lodash `_.isNil`: the value is `null` or `undefined`. */
  predicate IsNil(v: Value) {
    v.Undefined? || v.Null?
  }

  /** Whether `v` is an object with an own property named `key` (whatever its value). */
  predicate HasKey(v: Value, key: string) {
    v.Obj? && key in v.props
  }

  /** The property read `v[key]`: `undefined` when `v` has no such property. */
  function Get(v: Value, key: string): Value {
    if HasKey(v, key) then v.props[key] else Undefined
  }

  /** The JavaScript expression `a || b`. */
  function Or(a: Value, b: Value): Value {
    if Truthy(a) then a else b
  }

  /** The empty object literal `{}`. */
  const EmptyObject: Value := Obj(map[])
}
