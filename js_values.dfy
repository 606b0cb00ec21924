/**
 * JavaScript values as the decoder sees them: what `JSON.parse` yields, plus
 * `undefined`, which a read of a missing property or index yields. The
 * decoder reads these values with unchecked casts, so the model keeps them
 * untyped and spells out what each read does on each kind of value.
 */
module JsValues {

  /** A JSON value, or `undefined`. Numbers are integers in this model. */
  datatype Value =
    | Undefined
    | Null
    | Bool(b: bool)
    | Num(n: int)
    | Str(s: string)
    | Arr(items: seq<Value>)
    | Obj(fields: map<string, Value>)

  /** The exceptions the decoder's own expressions can throw. */
  datatype JsError = SyntaxError | TypeError

  /** JavaScript truthiness: `undefined`, `null`, `false`, `0` and `""` are falsy. */
  predicate Truthy(v: Value)
    ensures !Truthy(v) <==> v in {Undefined, Null, Bool(false), Num(0), Str("")}
  {
    match v
    case Undefined => false
    case Null => false
    case Bool(b) => b
    case Num(n) => n != 0
    case Str(s) => s != ""
    case Arr(_) => true
    case Obj(_) => true
  }

  /** A property or index can be read from `v` without a TypeError. */
  predicate Readable(v: Value) {
    !v.Undefined? && !v.Null?
  }

  /**
   * `v[key]` for the fixed metadata keys the decoder reads ("error_code",
   * "columnNames", ...): an own field of an object, otherwise `undefined`
   * (no built-in prototype defines these names).
   */
  function Get(v: Value, key: string): Value
    requires Readable(v)
  {
    if v.Obj? && key in v.fields then v.fields[key] else Undefined
  }

  /** `v?.[key]`: optional chaining reads `undefined` from `undefined` or `null`. */
  function GetOpt(v: Value, key: string): Value {
    if Readable(v) then Get(v, key) else Undefined
  }

  /**
   * `v[i]` for an index `i`: an array element, a one-character string, the
   * object field whose name is the decimal form of `i`, or `undefined`.
   * Strings are sequences of characters here, not of UTF-16 code units.
   */
  function At(v: Value, i: nat): (r: Value)
    requires Readable(v)
    ensures v.Arr? ==> r == Undefined || r in v.items
    ensures v.Str? ==> r == Undefined || (r.Str? && |r.s| == 1 && r.s[0] in v.s)
    ensures v.Obj? ==> r == Undefined || r in v.fields.Values
    ensures v.Bool? || v.Num? ==> r == Undefined
    ensures (v.Arr? && i >= |v.items|) || (v.Str? && i >= |v.s|) ==> r == Undefined
  {
    match v
    case Arr(items) => if i < |items| then items[i] else Undefined
    case Str(s) => if i < |s| then Str([s[i]]) else Undefined
    case Obj(fields) =>
      var name := NatToString(i);
      if name in fields then fields[name] else Undefined
    case _ => Undefined
  }

  function Digit(d: nat): char
    requires d < 10
  {
    "0123456789"[d]
  }

  /** Decimal form of a natural number, without leading zeros. */
  function NatToString(n: nat): (r: string)
    ensures |r| >= 1
    decreases n
  {
    if n < 10 then [Digit(n)] else NatToString(n / 10) + [Digit(n % 10)]
  }

  /** JavaScript `String(n)` for an integer. */
  function IntToString(n: int): string {
    if n < 0 then "-" + NatToString(-n) else NatToString(n)
  }

  /**
   * `ToPropertyKey(v)` does not throw. Converting an object calls its
   * `toString`, then its `valueOf`, and needs a primitive from one of them.
   * An own `toString` field of a JSON object is never callable and hides
   * `Object.prototype.toString`; `valueOf` then gives back the object
   * itself, so the conversion throws a TypeError. An array converts its
   * elements the same way, except `undefined` and `null`.
   */
  predicate KeyConvertible(v: Value)
    decreases v
  {
    match v
    case Obj(fields) => "toString" !in fields
    case Arr(items) => ElementsConvertible(items)
    case _ => true
  }

  predicate ElementsConvertible(items: seq<Value>)
    decreases items
  {
    items == [] || ((!Readable(items[0]) || KeyConvertible(items[0])) && ElementsConvertible(items[1..]))
  }

  /**
   * The property key JavaScript makes of a value used as `acc[key]`
   * (`ToPropertyKey`): a string is its own key, an array joins its
   * elements with ",", an object becomes "[object Object]".
   */
  function KeyOf(v: Value): (key: string)
    requires KeyConvertible(v)
    ensures v.Str? ==> key == v.s
    ensures v.Arr? && |v.items| == 1 && v.items[0].Str? ==> key == v.items[0].s
    ensures v.Arr? && v.items == [] ==> key == ""
    decreases v
  {
    match v
    case Undefined => "undefined"
    case Null => "null"
    case Bool(b) => if b then "true" else "false"
    case Num(n) => IntToString(n)
    case Str(s) => s
    case Arr(items) => ElementsText(items)
    case Obj(_) => "[object Object]"
  }

  /** `Array.prototype.join(",")`: `undefined` and `null` elements become "". */
  function ElementsText(items: seq<Value>): string
    requires ElementsConvertible(items)
    decreases items
  {
    if items == [] then ""
    else
      var first := if Readable(items[0]) then KeyOf(items[0]) else "";
      if |items| == 1 then first else first + "," + ElementsText(items[1..])
  }
}
