/**
  JavaScript values as they travel in message bodies and arguments.
  Numbers are restricted to integers; an object is a map of its own data
  properties, so reading an absent key yields `undefined`.
 */
module Values {

  datatype Json =
    | Undefined
    | Null
    | Bool(b: bool)
    | Num(n: int)
    | Str(s: string)
    | Arr(items: seq<Json>)
    | Obj(fields: map<string, Json>)

  /** JavaScript truthiness, the test behind `!!v` and `a || b`. */
  predicate Truthy(v: Json)
  {
    match v
    case Undefined => false
    case Null => false
    case Bool(b) => b
    case Num(n) => n != 0
    case Str(s) => s != ""
    case Arr(_) => true
    case Obj(_) => true
  }

  /** `o[key]` on a plain object given by its properties. */
  function Get(fields: map<string, Json>, key: string): Json
  {
    if key in fields then fields[key] else Undefined
  }

  /** `v[key]` on any value: only objects carry data properties here. */
  function Prop(v: Json, key: string): Json
  {
    if v.Obj? then Get(v.fields, key) else Undefined
  }

  function DigitChar(d: nat): char
    requires d < 10
  {
    "0123456789"[d]
  }

  /** Decimal notation of a natural number, most significant digit first. */
  function Digits(n: nat): string
    decreases n
  {
    if n < 10 then [DigitChar(n)] else Digits(n / 10) + [DigitChar(n % 10)]
  }

  /** The parts joined with ",", as `Array.prototype.join` does. */
  function JoinComma(parts: seq<string>): string
  {
    if |parts| == 0 then ""
    else if |parts| == 1 then parts[0]
    else JoinComma(parts[..|parts| - 1]) + "," + parts[|parts| - 1]
  }

  /**
    `String(v)`: the text a template literal interpolates, and the
    property key `o[v]` looks up.
   */
  function ToStr(v: Json): string
    decreases v
  {
    match v
    case Undefined => "undefined"
    case Null => "null"
    case Bool(b) => if b then "true" else "false"
    case Num(n) => if n < 0 then "-" + Digits(-n) else Digits(n)
    case Str(s) => s
    case Arr(items) =>
      JoinComma(seq(|items|, i requires 0 <= i < |items| =>
        if items[i].Undefined? || items[i].Null? then "" else ToStr(items[i])))
    case Obj(_) => "[object Object]"
  }

}
