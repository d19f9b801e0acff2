/**
 * The JavaScript values that occur in the configuration object, and the
 * JavaScript operators the assembler is written with: `||`, `&&`, `?:`,
 * object spread and array spread, with JavaScript's truthiness.
 */
module JsValue {
  import opened Wrappers

  /** A JavaScript value. Objects are maps from property name to value. */
  datatype Value =
    | Undefined
    | Bool(b: bool)
    | Num(n: int)
    | Str(s: string)
    | Arr(items: seq<Value>)
    | Obj(fields: map<string, Value>)

  /** JavaScript truthiness: `undefined`, `false`, `0` and `''` are falsy. */
  predicate Truthy(v: Value) {
    match v
    case Undefined => false
    case Bool(b) => b
    case Num(n) => n != 0
    case Str(s) => |s| > 0
    case Arr(_) => true
    case Obj(_) => true
  }

  /** `a || b` */
  function Or(a: Value, b: Value): Value {
    if Truthy(a) then a else b
  }

  /** `a && b` */
  function And(a: Value, b: Value): Value {
    if Truthy(a) then b else a
  }

  /** `a || b` is truthy exactly when one operand is, and it is one of
      the two operands: the first when that one is truthy, else the second. */
  lemma OrTruthy(a: Value, b: Value)
    ensures Truthy(Or(a, b)) <==> Truthy(a) || Truthy(b)
    ensures Or(a, b) == a || Or(a, b) == b
    ensures Truthy(a) ==> Or(a, b) == a
    ensures !Truthy(a) ==> Or(a, b) == b
  {
  }

  /** `a && b` is truthy exactly when both operands are, and it is one of
      the two operands: the first when that one is falsy, else the second. */
  lemma AndTruthy(a: Value, b: Value)
    ensures Truthy(And(a, b)) <==> Truthy(a) && Truthy(b)
    ensures And(a, b) == a || And(a, b) == b
    ensures !Truthy(a) ==> And(a, b) == a
    ensures Truthy(a) ==> And(a, b) == b
  {
  }

  /** `c ? t : e` */
  function Cond(c: Value, t: Value, e: Value): Value {
    if Truthy(c) then t else e
  }

  /** The values whose object spread `{...v}` is modelled: objects, and
      primitives that contribute no own enumerable property. */
  predicate ObjectSpreadable(v: Value) {
    v.Obj? || v.Undefined? || v.Bool? || v.Num? || (v.Str? && v.s == "")
  }

  /** The properties `...v` contributes to an object literal. */
  function SpreadObj(v: Value): map<string, Value>
    requires ObjectSpreadable(v)
  {
    if v.Obj? then v.fields else map[]
  }

  /** The elements `...v` contributes to an array literal. */
  function SpreadArr(v: Value): seq<Value>
    requires v.Arr?
  {
    v.items
  }

  /** Property access `v.key`, `None` when the property does not exist. */
  function Field(v: Value, key: string): Option<Value> {
    if v.Obj? && key in v.fields then Some(v.fields[key]) else None
  }

  /** Property access along a path, `v.k1.k2...`. */
  function At(v: Value, path: seq<string>): Option<Value>
    decreases |path|
  {
    if path == [] then Some(v)
    else
      match Field(v, path[0])
      case None => None
      case Some(child) => At(child, path[1..])
  }
}
