/** JavaScript values as request bodies carry them, with the coercions the handlers apply. */
module JsValue {
  import Text

  /**
   * A parsed JSON value, plus `undefined` for a property that is absent.
   * Numbers are restricted to integers.
   */
  datatype Json =
    | Undefined
    | Null
    | Bool(b: bool)
    | Num(n: int)
    | Str(s: string)
    | Arr(items: seq<Json>)
    | Obj(fields: map<string, Json>)

  /** `!v`: the falsy values a JSON value can take. */
  predicate Falsy(v: Json) {
    v == Undefined || v == Null || v == Bool(false) || v == Num(0) || v == Str("")
  }

  /** `a || b`: the first operand unless it is falsy; falsy only when both are. */
  function Or(a: Json, b: Json): (r: Json)
    ensures r == a || r == b
    ensures !Falsy(a) ==> r == a
    ensures Falsy(r) <==> Falsy(a) && Falsy(b)
  {
    if Falsy(a) then b else a
  }

  /** `v.key`, for a key that names no member inherited from `Object.prototype`. */
  function Get(v: Json, key: string): (r: Json)
    ensures r != Undefined ==> v.Obj? && key in v.fields && r == v.fields[key]
    ensures v.Obj? && key in v.fields ==> r == v.fields[key]
  {
    if v.Obj? && key in v.fields then v.fields[key] else Undefined
  }

  /** `String(v)`, the conversion a template literal `${v}` applies. */
  function ToJsString(v: Json): (r: string)
    ensures v.Str? ==> r == v.s
    ensures r == "" ==> v == Str("") || v.Arr?
  {
    match v
    case Undefined => "undefined"
    case Null => "null"
    case Bool(b) => if b then "true" else "false"
    case Num(n) => Text.IntToDecimal(n)
    case Str(s) => s
    case Arr(items) => JoinItems(v, items)
    case Obj(_) => "[object Object]"
  }

  /** `Array.prototype.join(",")`: null and undefined elements print as the empty string. */
  function JoinItems(ghost parent: Json, items: seq<Json>): string
    requires forall i :: 0 <= i < |items| ==> items[i] < parent
    decreases parent, |items|
  {
    if items == [] then ""
    else
      var head := if items[0].Undefined? || items[0].Null? then "" else ToJsString(items[0]);
      if |items| == 1 then head else head + "," + JoinItems(parent, items[1..])
  }
}
