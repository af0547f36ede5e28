/** The fragment of JavaScript's value semantics that the component relies on:
    the shapes of values, truthiness (what `if (x)` and `x || y` test), `typeof`,
    the `length` property read and the string conversion used by `+`. */
module Js {

  /** A JavaScript value. Numbers are integral here (plus NaN); arrays are lists of
      values and plain objects are maps from property name to value. */
  datatype Value =
    | Undefined
    | Null
    | Bool(b: bool)
    | Num(n: int)
    | NaN
    | Str(s: string)
    | List(items: seq<Value>)
    | Obj(props: map<string, Value>)

  /** JavaScript's ToBoolean: the falsy values are undefined, null, false, 0, NaN and ''. */
  predicate Truthy(v: Value)
  {
    match v
    case Undefined => false
    case Null => false
    case Bool(b) => b
    case Num(n) => n != 0
    case NaN => false
    case Str(s) => s != ""
    case List(_) => true
    case Obj(_) => true
  }

  /** The string the `typeof` operator yields (null is an "object", for historical reasons). */
  function TypeOf(v: Value): string
  {
    match v
    case Undefined => "undefined"
    case Null => "object"
    case Bool(_) => "boolean"
    case Num(_) => "number"
    case NaN => "number"
    case Str(_) => "string"
    case List(_) => "object"
    case Obj(_) => "object"
  }

  /** Reading property `key` of a plain object: a missing property reads as undefined. */
  function Prop(props: map<string, Value>, key: string): Value
  {
    if key in props then props[key] else Undefined
  }

  /** The expression `v.length`. Reading a property of undefined or null throws, so
      JavaScript demands that `v` is neither. Strings and arrays have a numeric
      length; other primitives have none; a plain object has whatever own `length`
      property it was given. */
  function Length(v: Value): Value
    requires !v.Undefined? && !v.Null?
  {
    match v
    case Str(s) => Num(|s|)
    case List(items) => Num(|items|)
    case Obj(props) => Prop(props, "length")
    case _ => Undefined
  }

  /** The expression `a || b`: `a` when it is truthy, otherwise `b`. */
  function Or(a: Value, b: Value): Value
  {
    if Truthy(a) then a else b
  }

  /** The decimal digits of a natural number. */
  function Digits(n: nat): string
    decreases n
  {
    var d := "0123456789"[n % 10];
    if n < 10 then [d] else Digits(n / 10) + [d]
  }

  /** JavaScript's String(v), the conversion `+` applies when its other operand is a
      string: arrays are joined with commas (undefined and null elements become
      empty), plain objects print as "[object Object]". Objects are taken to have
      the inherited `toString`; numbers are exact integers, printed in full. */
  function ToStr(v: Value): string
    decreases v
  {
    match v
    case Undefined => "undefined"
    case Null => "null"
    case Bool(b) => if b then "true" else "false"
    case Num(n) => if n < 0 then "-" + Digits(-n) else Digits(n)
    case NaN => "NaN"
    case Str(s) => s
    case List(items) => Join(items)
    case Obj(_) => "[object Object]"
  }

  /** Array.prototype.join with the default separator ",". */
  function Join(items: seq<Value>): string
    decreases items
  {
    if items == [] then ""
    else
      var head := if items[0].Undefined? || items[0].Null? then "" else ToStr(items[0]);
      if |items| == 1 then head else head + "," + Join(items[1..])
  }

  /** Exactly the six falsy values are falsy. */
  lemma FalsyValues(v: Value)
    ensures !Truthy(v) <==> v in {Undefined, Null, Bool(false), Num(0), NaN, Str("")}
  {
  }
}
