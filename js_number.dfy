/** The few JavaScript number operations the calculators rely on, over exact
    reals: `Math.ceil`, `Math.round`, the two ways the forms round a gram weight
    to thousandths, the `||` fallback on numbers, `>` and a division whose
    divisor may be zero. */
module JsNumber {
  import opened Wrappers

  /** `Math.ceil`: the least integer not below `x`. */
  function Ceil(x: real): (r: int)
    ensures x <= r as real < x + 1.0
  {
    -((-x).Floor)
  }

  /** `Math.round`: the nearest integer, a half rounding toward +infinity. */
  function Round(x: real): (r: int)
    ensures x - 0.5 < r as real <= x + 0.5
  {
    (x + 0.5).Floor
  }

  /** `Math.abs`. */
  function Abs(x: real): (r: real)
    ensures r >= 0.0 && (r == x || r == -x)
  {
    if x < 0.0 then -x else x
  }

  predicate IsInteger(x: real) {
    x.Floor as real == x
  }

  /** `x` has at most three decimals. */
  predicate IsThousandths(x: real) {
    IsInteger(x * 1000.0)
  }

  /** `Math.round(x * 1000) / 1000`. */
  function Round3(x: real): (r: real)
    ensures IsThousandths(r)
    ensures x - 0.0005 < r <= x + 0.0005
  {
    var n := Round(x * 1000.0);
    assert (n as real / 1000.0) * 1000.0 == n as real;
    n as real / 1000.0
  }

  /** `parseFloat(x.toFixed(3))`: `toFixed` rounds the magnitude, a half away
      from zero, and writes the sign separately. */
  function ToFixed3(x: real): (r: real)
    ensures IsThousandths(r)
    ensures x - 0.0005 <= r <= x + 0.0005
    ensures x >= 0.0 ==> r == Round3(x)
  {
    if x < 0.0 then
      var m := Round3(-x);
      NegatedThousandths(m);
      -m
    else Round3(x)
  }

  lemma {:induction false} NegatedThousandths(x: real)
    requires IsThousandths(x)
    ensures IsThousandths(-x)
  {
    var n := (x * 1000.0).Floor;
    assert (-x) * 1000.0 == (-n) as real;
  }

  lemma {:induction false} RoundOfInteger(n: int)
    ensures Round(n as real) == n
  {
  }

  lemma {:induction false} Round3OfThousandths(x: real)
    requires IsThousandths(x)
    ensures Round3(x) == x
  {
    var n := (x * 1000.0).Floor;
    assert n as real == x * 1000.0;
    RoundOfInteger(n);
  }

  lemma {:induction false} IntegerSum(a: real, b: real)
    requires IsInteger(a) && IsInteger(b)
    ensures IsInteger(a + b) && IsInteger(a - b)
  {
    var m, n := a.Floor, b.Floor;
    assert a == m as real && b == n as real;
    var s, d := m + n, m - n;
    assert s as real == m as real + n as real && d as real == m as real - n as real;
    assert (s as real).Floor == s && (d as real).Floor == d;
  }

  /** Sums and differences of thousandths are thousandths. */
  lemma {:induction false} ThousandthsSum(x: real, y: real)
    requires IsThousandths(x) && IsThousandths(y)
    ensures IsThousandths(x + y) && IsThousandths(x - y)
  {
    IntegerSum(x * 1000.0, y * 1000.0);
    assert (x + y) * 1000.0 == x * 1000.0 + y * 1000.0;
    assert (x - y) * 1000.0 == x * 1000.0 - y * 1000.0;
  }

  /** `toFixed(3)` leaves a value with at most three decimals as it is. */
  lemma {:induction false} ToFixed3OfThousandths(x: real)
    requires IsThousandths(x)
    ensures ToFixed3(x) == x
  {
    if x < 0.0 {
      NegatedThousandths(x);
      Round3OfThousandths(-x);
    } else {
      Round3OfThousandths(x);
    }
  }

  /** `x || d` for a number: zero (the only falsy number modelled) gives the default. */
  function Or(x: real, d: real): (r: real)
    ensures r != x ==> x == 0.0 && r == d
    ensures x != 0.0 ==> r == x
  {
    if x == 0.0 then d else x
  }

  /** `x || d` for a field that may be missing. */
  function OptOr(x: Option<real>, d: real): (r: real)
    ensures x.None? ==> r == d
    ensures x.Some? ==> r == Or(x.value, d)
  {
    match x
    case None => d
    case Some(v) => Or(v, d)
  }

  /** A JavaScript number that may come out of a division by zero. */
  datatype Num = Finite(value: real) | PositiveInfinity | NegativeInfinity | NaN

  /** `(a / b) * 100`: a percentage; a zero divisor gives an infinity of the
      sign of `a`, or NaN when `a` is zero too. */
  function Percent(a: real, b: real): (r: Num)
    ensures r.Finite? <==> b != 0.0
    ensures r.Finite? ==> r.value * b == a * 100.0
    ensures r.NaN? <==> b == 0.0 && a == 0.0
    ensures r.PositiveInfinity? <==> b == 0.0 && a > 0.0
  {
    if b != 0.0 then Finite(a / b * 100.0)
    else if a > 0.0 then PositiveInfinity
    else if a < 0.0 then NegativeInfinity
    else NaN
  }

  /** JavaScript `x > y`: false whenever NaN takes part. */
  predicate Greater(x: Num, y: Num) {
    match (x, y)
    case (NaN, _) => false
    case (_, NaN) => false
    case (Finite(a), Finite(b)) => a > b
    case (PositiveInfinity, _) => !y.PositiveInfinity?
    case (_, NegativeInfinity) => !x.NegativeInfinity?
    case (_, _) => false
  }

  /** On the numbers, `>` is a strict total order. */
  lemma {:induction false} GreaterIsStrictOrder(x: Num, y: Num, z: Num)
    ensures !Greater(x, x)
    ensures Greater(x, y) ==> !Greater(y, x)
    ensures Greater(x, y) && Greater(y, z) ==> Greater(x, z)
    ensures !x.NaN? && !y.NaN? && x != y ==> Greater(x, y) || Greater(y, x)
  {
  }
}
