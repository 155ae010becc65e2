/**
 * JavaScript runtime values as the client sees them: parsed JSON bodies,
 * JavaScript truthiness, property access with optional chaining, the
 * `String(...)` conversion, and the `Error` objects the client throws.
 */
module Js {
  import opened Wrappers

  /** A parsed JSON value. `undefined` is folded into `JNull`. Numbers are integers. */
  datatype Json =
    | JNull
    | JBool(b: bool)
    | JNum(n: int)
    | JStr(s: string)
    | JArr(elems: seq<Json>)
    | JObj(fields: map<string, Json>)

  /** JavaScript truthiness of a JSON value. */
  predicate Truthy(j: Json)
  {
    match j
    case JNull => false
    case JBool(b) => b
    case JNum(n) => n != 0
    case JStr(s) => s != ""
    case JArr(_) => true
    case JObj(_) => true
  }

  /** `j?.key`: the property of an object, and `undefined` (here `JNull`) for anything else. */
  function Get(j: Json, key: string): (v: Json)
    ensures v != JNull ==> j.JObj? && key in j.fields && j.fields[key] == v
    ensures j.JObj? && key in j.fields ==> v == j.fields[key]
  {
    if j.JObj? && key in j.fields then j.fields[key] else JNull
  }

  /** The number a string of decimal digits denotes, most significant digit first. */
  function DigitsValue(s: string): nat
    requires forall i :: 0 <= i < |s| ==> '0' <= s[i] <= '9'
  {
    if s == [] then 0 else DigitsValue(s[..|s| - 1]) * 10 + (s[|s| - 1] - '0') as nat
  }

  /** Decimal text of a natural number: digits only, and they denote `n`. */
  function NatDecimal(n: nat): (s: string)
    ensures |s| > 0
    ensures forall i :: 0 <= i < |s| ==> '0' <= s[i] <= '9'
    ensures DigitsValue(s) == n
    decreases n
  {
    var d := ['0' + (n % 10) as char];
    if n < 10 then d
    else
      var s := NatDecimal(n / 10) + d;
      assert s[..|s| - 1] == NatDecimal(n / 10);
      s
  }

  /** `String(n)` for an integer: a minus sign for negative values, then the digits of `|n|`. */
  function Decimal(n: int): (s: string)
    ensures |s| > 0
    ensures n >= 0 <==> s[0] != '-'
    ensures n >= 0 ==> (forall i :: 0 <= i < |s| ==> '0' <= s[i] <= '9') && DigitsValue(s) == n
    ensures n < 0 ==> (forall i :: 1 <= i < |s| ==> '0' <= s[i] <= '9') && DigitsValue(s[1..]) == -n
  {
    if n < 0 then
      var s := "-" + NatDecimal(-n);
      assert s[1..] == NatDecimal(-n);
      s
    else NatDecimal(n)
  }

  /** `parts.join(sep)`. */
  function Join(parts: seq<string>, sep: string): (s: string)
    ensures parts == [] ==> s == ""
    ensures |parts| == 1 ==> s == parts[0]
  {
    if parts == [] then ""
    else if |parts| == 1 then parts[0]
    else parts[0] + sep + Join(parts[1..], sep)
  }

  /**
   * `String(j)`: what `new Error(j)` makes of a non-string message. Arrays
   * join their elements with "," and print `null` elements as "".
   */
  function StringOf(j: Json): (s: string)
    ensures j.JStr? ==> s == j.s
    ensures j.JObj? ==> s == "[object Object]"
    decreases j
  {
    match j
    case JNull => "null"
    case JBool(b) => if b then "true" else "false"
    case JNum(n) => Decimal(n)
    case JStr(t) => t
    case JObj(_) => "[object Object]"
    case JArr(es) =>
      Join(seq(|es|, i requires 0 <= i < |es| => if es[i] == JNull then "" else StringOf(es[i])), ",")
  }

  /**
   * An `Error` object as this client builds or receives it: its message and the
   * extra properties the code reads or sets (`code`, `status`, `data`, `isAuthError`).
   */
  datatype Failure = Failure(
    message: string,
    code: Option<string>,
    status: Option<int>,
    data: Option<Json>,
    isAuthError: bool)

  /** A settled promise: fulfilled with a value, or rejected with an error. */
  datatype Result<+T> = Ok(value: T) | Err(error: Failure)

  /**
   * The `TypeError` raised by reading a property of `null` (its text is
   * engine-specific; this is V8's wording).
   */
  const NullPropertyRead: Failure :=
    Failure("Cannot read properties of null", None, None, None, false)
}
