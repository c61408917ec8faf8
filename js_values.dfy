/** JavaScript values as the style, font and template code reads them, and the
    three conversions that code relies on: truthiness, the `||` operator and
    `String(v)` (the conversion a template literal `${v}` applies). */
module JsValues {

  datatype Option<+T> = None | Some(value: T) {
    function GetOr(default: T): T {
      match this
      case Some(v) => v
      case None => default
    }
  }

  /** A call either returns a value or throws a `TypeError`. */
  datatype Outcome<T> = Returns(value: T) | Throws

  /** A JavaScript primitive. Numbers are exact reals: no NaN, no infinities,
      no IEEE rounding. */
  datatype JsVal = Undefined | Null | Bool(b: bool) | Num(n: real) | Str(s: string)

  /** The entries of a plain object, in `Object.entries` order. */
  type Entries = seq<(string, JsVal)>

  /** JavaScript truthiness: `false`, `0`, `""`, `null` and `undefined` are falsy. */
  predicate Truthy(v: JsVal) {
    match v
    case Undefined => false
    case Null => false
    case Bool(b) => b
    case Num(n) => n != 0.0
    case Str(s) => s != ""
  }

  /** `a || b` */
  function Or(a: JsVal, b: JsVal): JsVal {
    if Truthy(a) then a else b
  }

  /** Property read `obj[k]` on an object given by its entries: `undefined` when absent. */
  function Get(es: Entries, k: string): JsVal {
    if es == [] then Undefined
    else if es[0].0 == k then es[0].1
    else Get(es[1..], k)
  }

  lemma {:induction false} GetPresent(es: Entries, k: string, v: JsVal)
    requires (k, v) in es
    requires forall i, j :: 0 <= i < j < |es| ==> es[i].0 != es[j].0
    ensures Get(es, k) == v
  {
    if es[0] != (k, v) {
      assert es[0].0 != k by {
        var j :| 0 <= j < |es| && es[j] == (k, v);
      }
      GetPresent(es[1..], k, v);
    }
  }

  lemma {:induction false} GetAbsent(es: Entries, k: string)
    requires forall i :: 0 <= i < |es| ==> es[i].0 != k
    ensures Get(es, k) == Undefined
  {
    if es != [] {
      GetAbsent(es[1..], k);
    }
  }

  function DigitChar(d: int): (c: char)
    requires 0 <= d < 10
    ensures '0' <= c <= '9'
  {
    (48 + d) as char
  }

  /** Decimal digits of a natural number, most significant first. */
  function NatToString(n: nat): (s: string)
    ensures |s| > 0
    ensures forall i :: 0 <= i < |s| ==> '0' <= s[i] <= '9'
    decreases n
  {
    if n < 10 then [DigitChar(n)] else NatToString(n / 10) + [DigitChar(n % 10)]
  }

  /** `String(i)` for an integer. */
  function IntToString(i: int): string {
    if i < 0 then "-" + NatToString(-i) else NatToString(i)
  }

  /** Up to `fuel` digits of a fraction in [0, 1), stopping at the last non-zero digit. */
  function FractionDigits(f: real, fuel: nat): string
    requires 0.0 <= f < 1.0
    decreases fuel
  {
    if fuel == 0 || f == 0.0 then ""
    else
      var d := (f * 10.0).Floor;
      [DigitChar(d)] + FractionDigits(f * 10.0 - d as real, fuel - 1)
  }

  function Magnitude(r: real): string
    requires r >= 0.0
  {
    var whole := r.Floor;
    var frac := r - whole as real;
    NatToString(whole) + (if frac == 0.0 then "" else "." + FractionDigits(frac, 20))
  }

  /** `String(r)` for a number: plain decimal notation without trailing zeros. */
  function NumberToString(r: real): string
    decreases if r < 0.0 then 1 else 0
  {
    if r < 0.0 then "-" + NumberToString(-r) else Magnitude(r)
  }

  /** `String(v)`, as a template literal converts an interpolated value. */
  function ToJsString(v: JsVal): string {
    match v
    case Undefined => "undefined"
    case Null => "null"
    case Bool(b) => if b then "true" else "false"
    case Num(n) => NumberToString(n)
    case Str(s) => s
  }

  /** An element of `array.join(sep)`: `null` and `undefined` become the empty string. */
  function JoinElement(v: JsVal): string {
    if v == Undefined || v == Null then "" else ToJsString(v)
  }

  /** `array.join(sep)` over an array of values. */
  function JoinValues(vs: seq<JsVal>, sep: string): string
    decreases |vs|
  {
    if vs == [] then ""
    else if |vs| == 1 then JoinElement(vs[0])
    else JoinElement(vs[0]) + sep + JoinValues(vs[1..], sep)
  }
}
