/** A decoded JSON reply, and the bits of JavaScript semantics the widget
    applies to it: truthiness, `||`, `&&` and property access. */
module Json {

  /** One JSON value as `res.json()` produces it. `Null` stands for both
      `null` and `undefined`: the widget treats them alike (both are falsy,
      neither is a string nor an array), and reading a missing property or
      an out-of-range index gives `undefined`. Numbers are kept as reals;
      JSON cannot express NaN or infinities. */
  datatype Value =
    | Null
    | Bool(b: bool)
    | Num(n: real)
    | Str(s: string)
    | Arr(items: seq<Value>)
    | Obj(fields: map<string, Value>)

  /** JavaScript truthiness: `!v` is true exactly for null/undefined,
      `false`, zero and the empty string. Arrays and objects, even empty
      ones, are truthy. */
  predicate Truthy(v: Value) {
    match v
    case Null => false
    case Bool(b) => b
    case Num(n) => n != 0.0
    case Str(s) => s != ""
    case Arr(_) => true
    case Obj(_) => true
  }

  /** `a || b`: the first operand when it is truthy, else the second. */
  function Or(a: Value, b: Value): Value {
    if Truthy(a) then a else b
  }

  /** `a && b`: the second operand when the first is truthy, else the first. */
  function And(a: Value, b: Value): Value {
    if Truthy(a) then b else a
  }

  /** `v.key` for the property names the widget reads. Only an object
      carries them; on any other value (a string, an array, a number, a
      boolean) the lookup gives `undefined`. */
  function Prop(v: Value, key: string): Value {
    if v.Obj? && key in v.fields then v.fields[key] else Null
  }

  /** `String(v)` throws a TypeError. A decoded object has no callable
      methods of its own, so an own `toString` key hides the inherited
      method, the inherited `valueOf` returns the object itself, and the
      conversion fails. An array is converted by joining its elements, so
      it fails when one of them does. Every other value converts. */
  predicate ToStringThrows(v: Value) {
    match v
    case Obj(fields) => "toString" in fields
    case Arr(items) => exists i :: 0 <= i < |items| && ToStringThrows(items[i])
    case _ => false
  }
}
