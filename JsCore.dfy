/**
 * Numeric behaviour of the JavaScript built-ins the app relies on, stated
 * over Dafny's unbounded integers and exact reals: `Math.round`,
 * `Math.ceil`, `Math.min`/`Math.max`, the result of `parseFloat` (which can
 * also be an infinity or NaN), and powers used by the size tables.
 */
module JsCore {

  datatype Option<T> = None | Some(value: T)

  /** A JavaScript number as far as the app can observe it. */
  datatype Num = Finite(v: real) | PosInfinity | NegInfinity | NaN

  /** `n <= bound`; every comparison with NaN is false. */
  predicate NumAtMost(n: Num, bound: real)
  {
    match n
    case Finite(v) => v <= bound
    case NegInfinity => true
    case PosInfinity => false
    case NaN => false
  }

  /** `n >= bound`; every comparison with NaN is false. */
  predicate NumAtLeast(n: Num, bound: real)
  {
    match n
    case Finite(v) => v >= bound
    case PosInfinity => true
    case NegInfinity => false
    case NaN => false
  }

  /** `n >= bound` for an integer that may be NaN (a failed `parseInt`). */
  predicate IntAtLeast(n: Option<int>, bound: int)
  {
    n.Some? && n.value >= bound
  }

  /** `Math.round`: the nearest integer, halves rounded up. */
  function Round(x: real): (r: int)
    ensures x - 0.5 < r as real <= x + 0.5
  {
    (x + 0.5).Floor
  }

  /** `Math.ceil`. */
  function Ceil(x: real): (r: int)
    ensures x <= r as real < x + 1.0
  {
    -((-x).Floor)
  }

  function MinReal(a: real, b: real): (r: real)
    ensures r <= a && r <= b && (r == a || r == b)
  {
    if a <= b then a else b
  }

  /** `Math.max(lo, Math.min(hi, n))`. */
  function ClampInt(lo: int, hi: int, n: int): (r: int)
    requires lo <= hi
    ensures lo <= r <= hi
    ensures lo <= n <= hi ==> r == n
  {
    if n > hi then hi else if n < lo then lo else n
  }

  lemma RoundMonotone(x: real, y: real)
    requires x <= y
    ensures Round(x) <= Round(y)
  {
  }

  /** `Math.pow(base, n)` for a natural exponent. */
  function Power(base: real, n: nat): real
  {
    if n == 0 then 1.0 else base * Power(base, n - 1)
  }

  lemma {:induction false} PowerPositive(base: real, n: nat)
    requires base > 0.0
    ensures Power(base, n) > 0.0
  {
    if n > 0 {
      PowerPositive(base, n - 1);
    }
  }

  /** A power of a base in (0, 1) shrinks as the exponent grows. */
  lemma {:induction false} PowerBelowOneDecreasing(base: real, n: nat)
    requires 0.0 < base < 1.0
    ensures 0.0 < Power(base, n + 1) < Power(base, n)
  {
    PowerPositive(base, n);
    ScaleBelowOne(base, Power(base, n), Power(base, n + 1));
  }

  /** Scaling a positive number by a factor in (0, 1) makes it smaller but keeps it positive. */
  lemma ScaleBelowOne(a: real, p: real, q: real)
    requires 0.0 < a < 1.0 && p > 0.0 && q == a * p
    ensures 0.0 < q < p
  {
    ProductPositive(a, p);
    var rest := 1.0 - a;
    ProductPositive(rest, p);
    assert rest * p == p - q;
  }

  lemma ProductPositive(a: real, b: real)
    requires a > 0.0 && b > 0.0
    ensures a * b > 0.0
  {
  }
}
