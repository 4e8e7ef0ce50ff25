/**
 * The slice of JavaScript number behaviour the relay depends on: integer values that may
 * be `NaN` (what `parseInt` yields on bad input), multiplication that propagates `NaN`,
 * decimal rendering by `toString`/template literals, and `Math.ceil(n / 4)`. Values are
 * exact integers: the rounding of doubles above 2^53 and the exponent form that
 * `toString` uses from 1e21 on are outside this model.
 */
module JsNumbers {

  datatype JsNumber = NaN | Int(value: int)

  function DigitChar(d: nat): (c: char)
    requires d < 10
    ensures '0' <= c <= '9'
  {
    "0123456789"[d]
  }

  predicate IsDigit(c: char) {
    '0' <= c <= '9'
  }

  /** Decimal rendering of a natural number, most significant digit first, no leading zeros. */
  function NatToString(n: nat): (r: string)
    decreases n
    ensures |r| >= 1
    ensures forall k :: 0 <= k < |r| ==> IsDigit(r[k])
    ensures r[0] == '0' ==> n == 0
  {
    if n < 10 then [DigitChar(n)] else NatToString(n / 10) + [DigitChar(n % 10)]
  }

  /** `String(i)` for an integer: an optional minus sign followed by digits. */
  function IntToString(i: int): (r: string)
    ensures |r| >= 1
    ensures r[0] == '-' <==> i < 0
    ensures forall k :: 0 < k < |r| ==> IsDigit(r[k])
  {
    if i < 0 then "-" + NatToString(-i) else NatToString(i)
  }

  /** `String(x)`: `"NaN"` or the decimal rendering. */
  function ToString(x: JsNumber): (r: string)
    ensures x.NaN? <==> r == "NaN"
  {
    match x
    case NaN => "NaN"
    case Int(v) => IntToString(v)
  }

  /** `a * b`: `NaN` as soon as either side is. */
  function Mul(a: JsNumber, b: JsNumber): (r: JsNumber)
    ensures r.NaN? <==> a.NaN? || b.NaN?
    ensures r.Int? ==> r.value == a.value * b.value
  {
    if a.NaN? || b.NaN? then NaN else Int(a.value * b.value)
  }

  /** `Math.ceil(n / 4)` for a length `n`: the least `r` with `4 * r >= n`. */
  function CeilQuarter(n: nat): (r: nat)
    ensures 4 * r >= n
    ensures 4 * (r - 1) < n
  {
    (n + 3) / 4
  }

  /** Every character of a rendered number is a digit, a minus sign or one of the letters of `NaN`. */
  lemma {:induction false} RenderingHasNoUnderscore(x: JsNumber)
    ensures forall k :: 0 <= k < |ToString(x)| ==> ToString(x)[k] != '_'
  {
    match x
    case NaN =>
    case Int(v) =>
      var r := IntToString(v);
      forall k | 0 <= k < |r| ensures r[k] != '_' {
        if k > 0 { assert IsDigit(r[k]); }
      }
  }
}
