/** The slice of JavaScript semantics the two handlers rely on: JSON values,
    truthiness, the `||` operator, `String(v)` coercion (which is also how an
    object key is formed) and property access, which throws a TypeError on
    `null` and `undefined`. */
module JsSemantics {

  datatype Option<+T> = None | Some(value: T)

  datatype Result<+T, +E> = Ok(value: T) | Err(error: E)

  /** A value produced by JSON.parse, plus `undefined` for a missing property.
      Numbers are integers here; JSON's fractional numbers are not modelled. */
  datatype JsValue =
    | Undefined
    | Null
    | Bool(b: bool)
    | Num(n: int)
    | Str(s: string)
    | Arr(items: seq<JsValue>)
    | Obj(fields: map<string, JsValue>)

  /** `v == null` in JavaScript: the two values whose property access throws. */
  predicate Nullish(v: JsValue) {
    v.Undefined? || v.Null?
  }

  /** JavaScript truthiness (`if (v)`, `!v`, `||`). */
  predicate Truthy(v: JsValue) {
    match v
    case Undefined => false
    case Null => false
    case Bool(b) => b
    case Num(n) => n != 0
    case Str(s) => s != ""
    case Arr(_) => true
    case Obj(_) => true
  }

  /** Truthiness of an optional string such as `process.env.MINIMAX_API_KEY`. */
  predicate TruthyString(o: Option<string>) {
    o.Some? && o.value != ""
  }

  /** `a || b`: the left operand when it is truthy, otherwise the right one. */
  function Or(a: JsValue, b: JsValue): (r: JsValue)
    ensures Truthy(r) <==> Truthy(a) || Truthy(b)
  {
    if Truthy(a) then a else b
  }

  /** The decimal digits of a natural number, most significant first. */
  function Digits(n: nat): (r: string)
    decreases n
  {
    (if n < 10 then "" else Digits(n / 10)) + [DigitChar(n % 10)]
  }

  function DigitChar(d: nat): (c: char)
    requires d < 10
    ensures '0' <= c <= '9'
  {
    "0123456789"[d]
  }

  /** `String(n)` for an integer `n`. */
  function IntToDecimal(n: int): (r: string) {
    if n < 0 then "-" + Digits(-n) else Digits(n)
  }

  lemma {:induction false} DigitsShape(n: nat)
    ensures |Digits(n)| >= 1
    ensures n >= 10 <==> |Digits(n)| >= 2
    ensures forall i :: 0 <= i < |Digits(n)| ==> '0' <= Digits(n)[i] <= '9'
  {
    if n >= 10 {
      DigitsShape(n / 10);
    }
  }

  /** `String(n)` is a single character exactly for the one-digit naturals,
      and then it is that digit. */
  lemma DecimalSingleChar(n: int)
    ensures |IntToDecimal(n)| == 1 <==> 0 <= n < 10
    ensures 0 <= n < 10 ==> IntToDecimal(n) == [DigitChar(n)]
  {
    if n < 0 {
      DigitsShape(-n);
    } else {
      DigitsShape(n);
    }
  }

  /** `String(v)`: the string a value converts to, which is also the key an
      object lookup `o[v]` uses. Array elements that are null or undefined
      convert to the empty string and the rest are joined by commas. */
  function ToJsString(v: JsValue): (r: string)
    decreases v
  {
    match v
    case Undefined => "undefined"
    case Null => "null"
    case Bool(b) => if b then "true" else "false"
    case Num(n) => IntToDecimal(n)
    case Str(s) => s
    case Arr(xs) =>
      Join(seq(|xs|, i requires 0 <= i < |xs| =>
        if Nullish(xs[i]) then "" else ToJsString(xs[i])), ",")
    case Obj(_) => "[object Object]"
  }

  function Join(parts: seq<string>, sep: string): (r: string)
    ensures |parts| == 1 ==> r == parts[0]
    ensures parts == [] ==> r == ""
  {
    if |parts| == 0 then ""
    else if |parts| == 1 then parts[0]
    else parts[0] + sep + Join(parts[1..], sep)
  }

  /** A property name that is not an array index (`role`, `choices`, ...). */
  predicate IsName(name: string) {
    name != "" && !('0' <= name[0] <= '9')
  }

  /** `v.name` for a non-index name on a value that is not null or
      undefined. Arrays and strings answer only `length`; booleans and
      numbers have no own properties. */
  function Prop(v: JsValue, name: string): (r: JsValue)
    requires !Nullish(v) && IsName(name)
  {
    match v
    case Obj(m) => if name in m then m[name] else Undefined
    case Arr(xs) => if name == "length" then Num(|xs|) else Undefined
    case Str(s) => if name == "length" then Num(|s|) else Undefined
    case _ => Undefined
  }

  /** `v?.name`: undefined when `v` is null or undefined. */
  function OptProp(v: JsValue, name: string): (r: JsValue)
    requires IsName(name)
  {
    if Nullish(v) then Undefined else Prop(v, name)
  }

  /** `v[0]` on a value that is not null or undefined. */
  function Index0(v: JsValue): (r: JsValue)
    requires !Nullish(v)
  {
    match v
    case Arr(xs) => if xs == [] then Undefined else xs[0]
    case Str(s) => if s == "" then Undefined else Str([s[0]])
    case Obj(m) => if "0" in m then m["0"] else Undefined
    case _ => Undefined
  }

  /** `v > 0`, for the values a `length` property takes: numbers, booleans
      (`true` is 1), and `undefined` (NaN) or `null` (0). A string, array or
      object is taken as not positive. */
  predicate Positive(v: JsValue) {
    match v
    case Num(n) => n > 0
    case Bool(b) => b
    case _ => false
  }
}
