/**
 * The JavaScript values that flow through a track's configuration object,
 * with the truthiness that `||` and `if (x)` test and the ToNumber
 * conversion that `Math.min`, `Math.max` and the relational operators apply.
 */
module JsValues {
  import opened JsNumbers
  import opened NumericStrings

  /**
   * A configuration value. `Obj` is any object; of its properties only
   * `name` is ever read by the code modelled here (`config.localFile.name`).
   */
  datatype JsVal = Undefined | Null | Bool(b: bool) | Number(n: JsNumber) | Str(s: string) | Obj(name: JsVal)

  /** ToBoolean: undefined, null, false, 0, NaN and "" are falsy; everything else is truthy. */
  predicate Truthy(v: JsVal) {
    match v
    case Undefined => false
    case Null => false
    case Bool(b) => b
    case Number(n) => n != Finite(0.0) && n != NaN
    case Str(s) => s != ""
    case Obj(_) => true
  }

  /** `a || b`: the left operand when it is truthy, otherwise the right one. */
  function Or(a: JsVal, b: JsVal): JsVal {
    if Truthy(a) then a else b
  }

  /** ToNumber on any value; an object converts through the string "[object Object]". */
  function ToNumber(v: JsVal): JsNumber {
    match v
    case Undefined => NaN
    case Null => Finite(0.0)
    case Bool(b) => Finite(if b then 1.0 else 0.0)
    case Number(n) => n
    case Str(s) => StringToNumber(s)
    case Obj(_) => NaN
  }

  /** `v.name` for a value that is not undefined or null: only objects carry the property. */
  function NameProperty(v: JsVal): JsVal {
    if v.Obj? then v.name else Undefined
  }

  /** A JavaScript number literal. */
  function Num(x: real): JsVal {
    Number(Finite(x))
  }
}
