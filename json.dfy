/**
 * JSON values as the backend stores them and the browser receives them, and the
 * few JavaScript conversions the dashboard applies to them: property access,
 * truthiness and the string conversion done by template literals.
 */
module Json {

  datatype Option<+T> = None | Some(value: T)

  /** A JSON value. Numbers are integers: no value exchanged in this system is fractional. */
  datatype Value =
    | Null
    | Bool(b: bool)
    | Number(n: int)
    | Str(s: string)
    | Array(items: seq<Value>)
    | Object(fields: map<string, Value>)

  /** `v.key` (or `v?.key`) in JavaScript on a parsed JSON value; None stands for `undefined`.
      Only object members are looked up: the keys used here are not properties of arrays or strings. */
  function Member(v: Value, key: string): Option<Value>
  {
    if v.Object? && key in v.fields then Some(v.fields[key]) else None
  }

  /** `a?.key` where `a` may itself be `undefined`. */
  function Prop(a: Option<Value>, key: string): Option<Value>
  {
    if a.Some? then Member(a.value, key) else None
  }

  /** JavaScript truthiness of a possibly `undefined` JSON value. */
  predicate Truthy(v: Option<Value>)
  {
    match v
    case None => false
    case Some(Null) => false
    case Some(Bool(b)) => b
    case Some(Number(n)) => n != 0
    case Some(Str(s)) => s != ""
    case Some(Array(_)) => true
    case Some(Object(_)) => true
  }

  predicate IsDigit(c: char) { '0' <= c <= '9' }

  function DigitChar(d: nat): (c: char)
    requires d < 10
    ensures IsDigit(c)
  {
    "0123456789"[d]
  }

  /** The decimal numeral of a natural number, as `String(n)` writes it. */
  function NatText(n: nat): (s: string)
    ensures |s| > 0
    ensures forall i :: 0 <= i < |s| ==> IsDigit(s[i])
    ensures n > 0 ==> s[0] != '0'
  {
    if n < 10 then [DigitChar(n)] else NatText(n / 10) + [DigitChar(n % 10)]
  }

  /** `String(n)` for an integer. */
  function IntText(n: int): (s: string)
    ensures |s| > 0
    ensures forall i :: 0 <= i < |s| ==> IsDigit(s[i]) || s[i] == '-'
  {
    if n < 0 then "-" + NatText(-n) else NatText(n)
  }

  /** The text a JavaScript template literal `${v}` produces for a JSON value or `undefined`. */
  function Text(v: Option<Value>): string
  {
    match v
    case None => "undefined"
    case Some(j) => ValueText(j)
  }

  function ValueText(j: Value): string
    decreases j, 1, 0
  {
    match j
    case Null => "null"
    case Bool(b) => if b then "true" else "false"
    case Number(n) => IntText(n)
    case Str(s) => s
    case Array(items) => JoinedText(items, 0)
    case Object(_) => "[object Object]"
  }

  /** `Array.prototype.join(",")` from index `i` on: `null` elements become empty. */
  function JoinedText(items: seq<Value>, i: nat): string
    requires i <= |items|
    decreases Array(items), 0, |items| - i
  {
    if i == |items| then ""
    else
      assert items[i] in items;
      (if i > 0 then "," else "")
      + (if items[i].Null? then "" else ValueText(items[i]))
      + JoinedText(items, i + 1)
  }
}
