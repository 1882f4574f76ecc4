/** JavaScript values as the front end sees them: numbers that may be `NaN`,
    loosely typed JSON, truthiness, `String(v)` and property access that
    throws on `null`/`undefined`. */
module JsValues {
  import opened Wrappers
  import opened Text

  /** A JavaScript number: `NaN` or a finite value. */
  datatype Num = NaN | Fin(v: real)

  /** `!!n`: zero and `NaN` are falsy. */
  predicate NumTruthy(n: Num) {
    n.Fin? && n.v != 0.0
  }

  /** `n || d` with a numeric default `d`. */
  function NumOr(n: Num, d: real): real {
    if NumTruthy(n) then n.v else d
  }

  /** `parseInt(s, 10)`. */
  function ParseInt(s: string): (r: Num)
    ensures r.Fin? ==> r.v.Floor as real == r.v
  {
    match ParseIntPrefix(s)
    case None => NaN
    case Some(i) => Fin(i as real)
  }

  /** `parseFloat(s)`. */
  function ParseFloat(s: string): Num {
    match ParseFloatPrefix(s)
    case None => NaN
    case Some(x) => Fin(x)
  }

  predicate IsIntegral(x: real) {
    x.Floor as real == x
  }

  /** Up to `k` decimal digits of the fraction `f`, stopping early when the
      remaining fraction is zero. */
  function FractionDigits(f: real, k: nat): string
    requires 0.0 <= f < 1.0
    decreases k
  {
    if k == 0 || f == 0.0 then ""
    else
      var d := (f * 10.0).Floor;
      [DigitChar(d)] + FractionDigits(f * 10.0 - d as real, k - 1)
  }

  /** Rendering of a non-negative number: the integer part, then a `.` and
      the fraction digits when there is a fraction. */
  function UnsignedToString(x: real): string
    requires x >= 0.0
  {
    var i := x.Floor;
    NatToString(i) + (if i as real == x then "" else "." + FractionDigits(x - i as real, 20))
  }

  /** `String(n)`. */
  function NumberToString(n: Num): string {
    match n
    case NaN => "NaN"
    case Fin(v) => if v < 0.0 then "-" + UnsignedToString(-v) else UnsignedToString(v)
  }

  /** An integer-valued number renders exactly as the integer does. */
  lemma NumberToStringOfInt(i: int)
    ensures NumberToString(Fin(i as real)) == IntToString(i)
  {
    if i < 0 {
      var x := -(i as real);
      assert x.Floor == -i;
      assert UnsignedToString(x) == NatToString(-i);
    } else {
      assert (i as real).Floor == i;
    }
  }

  /** Rendering an integer-valued number and reading it back with
      `parseInt` gives the number again. */
  lemma ParseIntOfNumberToString(i: int)
    ensures ParseInt(NumberToString(Fin(i as real))) == Fin(i as real)
  {
    NumberToStringOfInt(i);
    ParseIntOfIntToString(i);
  }

  /** Loosely typed JSON as received from the server, plus `undefined`
      (a missing property). */
  datatype Json =
    | JNull
    | JUndefined
    | JBool(b: bool)
    | JNum(n: Num)
    | JStr(s: string)
    | JArr(items: seq<Json>)
    | JObj(fields: map<string, Json>)

  /** JavaScript truthiness. */
  predicate Truthy(j: Json) {
    match j
    case JNull => false
    case JUndefined => false
    case JBool(b) => b
    case JNum(n) => NumTruthy(n)
    case JStr(s) => s != ""
    case JArr(_) => true
    case JObj(_) => true
  }

  /** `a || b`. */
  function Or(a: Json, b: Json): (r: Json)
    ensures Truthy(a) ==> r == a
    ensures !Truthy(a) ==> r == b
  {
    if Truthy(a) then a else b
  }

  /** `String(v)`; arrays join their elements with commas, rendering
      `null`/`undefined` elements as empty. */
  function ToStr(j: Json): string
    decreases j, 1
  {
    match j
    case JNull => "null"
    case JUndefined => "undefined"
    case JBool(b) => if b then "true" else "false"
    case JNum(n) => NumberToString(n)
    case JStr(s) => s
    case JArr(items) => Join(items, j)
    case JObj(_) => "[object Object]"
  }

  function Join(items: seq<Json>, ghost parent: Json): string
    requires forall k :: 0 <= k < |items| ==> items[k] < parent
    decreases parent, 0, |items|
  {
    if items == [] then ""
    else
      var last := items[|items| - 1];
      var cell := if last.JNull? || last.JUndefined? then "" else ToStr(last);
      if |items| == 1 then cell else Join(items[..|items| - 1], parent) + "," + cell
  }

  /** `obj[key]`: reading a property of `null`/`undefined` throws a
      `TypeError`; a missing key, or any key of a primitive, is
      `undefined`. */
  function Property(j: Json, key: string): (r: Outcome<Json>)
    ensures r.Threw? <==> j.JNull? || j.JUndefined?
    ensures j.JObj? && key in j.fields ==> r == Returned(j.fields[key])
    ensures j.JObj? && key !in j.fields ==> r == Returned(JUndefined)
  {
    match j
    case JNull => Threw("Cannot read properties of null (reading '" + key + "')")
    case JUndefined => Threw("Cannot read properties of undefined (reading '" + key + "')")
    case JObj(fields) => Returned(if key in fields then fields[key] else JUndefined)
    case _ => Returned(JUndefined)
  }

  /** Property access on a value known to be an object or primitive. */
  function Get(j: Json, key: string): Json {
    if j.JObj? && key in j.fields then j.fields[key] else JUndefined
  }

  function Num0(): Json {
    JNum(Fin(0.0))
  }

  function NumOf(i: int): Json {
    JNum(Fin(i as real))
  }
}
