/**
 * The float64 arithmetic the query pipeline relies on, stated over `real`:
 * Go's `math.Round`, the constant `math.Pi`, and the division `dv / dt`
 * whose zero divisor yields an infinity or NaN rather than a failure.
 */
module Numeric {

  /** A float64 as the transforms can produce it: a finite value or one of the IEEE specials. */
  datatype Num = Finite(x: real) | PosInf | NegInf | NaN

  /** Go's `math.Pi`. */
  const Pi: real := 3.14159265358979323846264338327950288419716939937510582097494459

  predicate IsIntegral(x: real) {
    x == x.Floor as real
  }

  /** `y` is a whole multiple of the step `1 / scale`. */
  predicate OnGrid(y: real, scale: real) {
    IsIntegral(y * scale)
  }

  function Abs(x: real): real {
    if x < 0.0 then -x else x
  }

  /**
   * `math.Round`: the nearest integer, halves rounded away from zero.
   * The postconditions determine the result uniquely.
   */
  function Round(x: real): (r: real)
    ensures IsIntegral(r)
    ensures -0.5 <= r - x <= 0.5
    ensures Abs(r - x) == 0.5 ==> Abs(r) > Abs(x)
  {
    if x >= 0.0 then
      var f := (x + 0.5).Floor;
      assert f as real <= x + 0.5 < f as real + 1.0;
      f as real
    else
      var f := (-x + 0.5).Floor;
      assert f as real <= -x + 0.5 < f as real + 1.0;
      (-f) as real
  }

  /** Round is odd: rounding away from zero treats both signs alike. */
  lemma RoundNegate(x: real)
    ensures Round(-x) == -Round(x)
  {
    if x > 0.0 {
      assert -x < 0.0;
    } else if x < 0.0 {
    } else {
      assert Round(x) == 0.0;
    }
  }

  /** Any integral value within one half of `x`, ties taken away from zero, is `Round(x)`. */
  lemma RoundUnique(x: real, n: real)
    requires IsIntegral(n)
    requires -0.5 <= n - x <= 0.5
    requires Abs(n - x) == 0.5 ==> Abs(n) > Abs(x)
    ensures n == Round(x)
  {
    var r := Round(x);
    var a, b := n.Floor, r.Floor;
    assert n == a as real && r == b as real;
    assert -1.0 <= (a - b) as real <= 1.0;
    assert a - b == 1 ==> Abs(n - x) == 0.5 && Abs(r - x) == 0.5;
    assert a - b == -1 ==> Abs(n - x) == 0.5 && Abs(r - x) == 0.5;
  }

  /** An integral value rounds to itself. */
  lemma RoundIntegral(x: real)
    requires IsIntegral(x)
    ensures Round(x) == x
  {
    RoundUnique(x, x);
  }

  /**
   * `math.Round(v * scale) / scale`: the nearest multiple of `1 / scale`,
   * halves rounded away from zero. The postconditions determine the result
   * (RoundToUnique).
   */
  function RoundTo(v: Num, scale: real): (r: Num)
    requires scale > 0.0
    ensures v.Finite? <==> r.Finite?
    ensures v.Finite? ==> OnGrid(r.x, scale)
    ensures v.Finite? ==> -0.5 / scale <= r.x - v.x <= 0.5 / scale
    ensures v.Finite? && Abs(r.x - v.x) == 0.5 / scale ==> Abs(r.x) > Abs(v.x)
    ensures !v.Finite? ==> r == v
  {
    match v
    case Finite(x) => Finite(Nearest(x, scale))
    case _ => v
  }

  /** The finite case of RoundTo: the multiple of `1 / scale` nearest to `x`. */
  function Nearest(x: real, scale: real): (q: real)
    requires scale > 0.0
    ensures OnGrid(q, scale)
    ensures -0.5 / scale <= q - x <= 0.5 / scale
    ensures Abs(q - x) == 0.5 / scale ==> Abs(q) > Abs(x)
  {
    var n := Round(x * scale);
    RoundToFacts(x, scale, n);
    n / scale
  }

  /** Multiplying by a positive factor keeps order. */
  lemma ScaleOrder(a: real, b: real, scale: real)
    requires scale > 0.0
    ensures a <= b <==> a * scale <= b * scale
    ensures a < b <==> a * scale < b * scale
  {
    assert b * scale - a * scale == (b - a) * scale;
    if b - a > 0.0 {
      assert (b - a) * scale > 0.0;
    } else if b - a < 0.0 {
      assert (a - b) * scale > 0.0;
    }
  }

  lemma RoundToFacts(x: real, scale: real, n: real)
    requires scale > 0.0
    requires n == Round(x * scale)
    ensures OnGrid(n / scale, scale)
    ensures -0.5 / scale <= n / scale - x <= 0.5 / scale
    ensures Abs(n / scale - x) == 0.5 / scale ==> Abs(n / scale) > Abs(x)
  {
    var q := n / scale;
    DivMul(n, scale);
    ScaledDistance(q, x, scale);
    ScaledMagnitude(q, x, scale);
  }

  lemma ScaledMagnitude(q: real, x: real, scale: real)
    requires scale > 0.0
    ensures Abs(q) > Abs(x) <==> Abs(q * scale) > Abs(x * scale)
  {
    AbsScale(q, scale);
    AbsScale(x, scale);
    ScaleOrder(Abs(x), Abs(q), scale);
  }

  lemma AbsScale(a: real, scale: real)
    requires scale > 0.0
    ensures Abs(a * scale) == Abs(a) * scale
  {
    if a < 0.0 {
      ScaleOrder(a, 0.0, scale);
      assert -(a * scale) == (-a) * scale;
    } else {
      ScaleOrder(0.0, a, scale);
    }
  }

  /** Scaling by a positive factor scales distances and magnitudes alike. */
  lemma ScaledDistance(q: real, x: real, scale: real)
    requires scale > 0.0
    ensures q - x == (q * scale - x * scale) / scale
    ensures -0.5 / scale <= q - x <= 0.5 / scale <==> -0.5 <= q * scale - x * scale <= 0.5
    ensures Abs(q - x) == 0.5 / scale <==> Abs(q * scale - x * scale) == 0.5
  {
    var d := q - x;
    assert q * scale - x * scale == d * scale;
    assert (0.5 / scale) * scale == 0.5 && (-0.5 / scale) * scale == -0.5;
    ScaleOrder(-0.5 / scale, d, scale);
    ScaleOrder(d, 0.5 / scale, scale);
    AbsScale(d, scale);
    assert Abs(d) == 0.5 / scale <==> Abs(d) * scale == 0.5;
  }

  /** Any multiple of `1 / scale` within half a step of `x`, ties taken away from zero, is what RoundTo gives. */
  lemma RoundToUnique(x: real, q: real, scale: real)
    requires scale > 0.0
    requires OnGrid(q, scale)
    requires -0.5 / scale <= q - x <= 0.5 / scale
    requires Abs(q - x) == 0.5 / scale ==> Abs(q) > Abs(x)
    ensures RoundTo(Finite(x), scale) == Finite(q)
  {
    NearestUnique(x, q, scale);
    RoundToFinite(x, scale);
  }

  lemma NearestUnique(x: real, q: real, scale: real)
    requires scale > 0.0
    requires OnGrid(q, scale)
    requires -0.5 / scale <= q - x <= 0.5 / scale
    requires Abs(q - x) == 0.5 / scale ==> Abs(q) > Abs(x)
    ensures Nearest(x, scale) == q
  {
    NearestScaled(x, scale);
    ScaledRound(x, q, scale);
    ScaleCancel(q, Nearest(x, scale), scale);
  }

  lemma NearestScaled(x: real, scale: real)
    requires scale > 0.0
    ensures Nearest(x, scale) * scale == Round(x * scale)
  {
    ScaledRound(x, Nearest(x, scale), scale);
  }

  lemma RoundToFinite(x: real, scale: real)
    requires scale > 0.0
    ensures RoundTo(Finite(x), scale) == Finite(Nearest(x, scale))
  {
  }

  lemma DivMul(n: real, scale: real)
    requires scale > 0.0
    ensures (n / scale) * scale == n
  {
  }

  lemma ScaleCancel(a: real, b: real, scale: real)
    requires scale > 0.0
    requires a * scale == b * scale
    ensures a == b
  {
    ScaleOrder(a, b, scale);
    ScaleOrder(b, a, scale);
  }

  /** Scaled up, such a multiple is the rounded scaled value. */
  lemma ScaledRound(x: real, q: real, scale: real)
    requires scale > 0.0
    requires OnGrid(q, scale)
    requires -0.5 / scale <= q - x <= 0.5 / scale
    requires Abs(q - x) == 0.5 / scale ==> Abs(q) > Abs(x)
    ensures q * scale == Round(x * scale)
  {
    ScaledDistance(q, x, scale);
    ScaledMagnitude(q, x, scale);
    RoundUnique(x * scale, q * scale);
  }

  /**
   * The IEEE quotient `dv / dt` for finite operands: a zero divisor gives an
   * infinity of the dividend's sign, or NaN when the dividend is zero too.
   */
  function Div(dv: real, dt: real): (r: Num)
    ensures r.Finite? <==> dt != 0.0
    ensures r.Finite? ==> r.x * dt == dv
    ensures r == NaN <==> dt == 0.0 && dv == 0.0
    ensures r == PosInf <==> dt == 0.0 && dv > 0.0
    ensures r == NegInf <==> dt == 0.0 && dv < 0.0
  {
    if dt != 0.0 then Finite(dv / dt)
    else if dv > 0.0 then PosInf
    else if dv < 0.0 then NegInf
    else NaN
  }
}
