/**
 * The series transforms selected by the `TRANSFORM_*` codes 0 to 5: the
 * identity, the first derivative dv/dt (unrounded, or rounded to 1, 0.1 or
 * 0.01) and the delta dv, numpy's `diff`. Every non-identity transform drops
 * the first sample: output k belongs to the interval ending at input time k+1.
 */
module Transforms {
  import opened Numeric

  const TransformNone: int := 0
  const TransformFirstDerivative: int := 1
  const TransformFirstDerivative1Hz: int := 2
  const TransformFirstDerivative10Hz: int := 3
  const TransformFirstDerivative100Hz: int := 4
  const TransformDelta: int := 5

  predicate KnownTransform(code: int) {
    TransformNone <= code <= TransformDelta
  }

  predicate IsDerivative(code: int) {
    TransformFirstDerivative <= code <= TransformFirstDerivative100Hz
  }

  /** The step a rounded derivative code rounds to is `1 / Scale(code)`: 1, 0.1 or 0.01. */
  function Scale(code: int): (r: real)
    requires IsDerivative(code) && code != TransformFirstDerivative
    ensures r > 0.0
  {
    if code == TransformFirstDerivative1Hz then 1.0
    else if code == TransformFirstDerivative10Hz then 10.0
    else 100.0
  }

  /**
   * The rounding a derivative code applies to dv/dt: none for code 1, the
   * nearest multiple of the code's step otherwise; an infinity or NaN passes
   * through unchanged.
   */
  function RoundFor(code: int, v: Num): (r: Num)
    requires IsDerivative(code)
    ensures r.Finite? <==> v.Finite?
    ensures code == TransformFirstDerivative || !v.Finite? ==> r == v
    ensures code != TransformFirstDerivative && v.Finite? ==>
      OnGrid(r.x, Scale(code))
      && -0.5 / Scale(code) <= r.x - v.x <= 0.5 / Scale(code)
      && (Abs(r.x - v.x) == 0.5 / Scale(code) ==> Abs(r.x) > Abs(v.x))
  {
    if code == TransformFirstDerivative then v else RoundTo(v, Scale(code))
  }

  /**
   * The derivative over the interval from sample k to sample k+1: finite
   * exactly when time advances, then dv/dt itself (code 1) or a multiple of
   * the code's step within half a step of it; over a zero interval the IEEE
   * quotient, an infinity or NaN.
   */
  function Slope(code: int, times: seq<real>, values: seq<real>, k: nat): (r: Num)
    requires IsDerivative(code)
    requires |values| == |times| && k + 1 < |times|
    ensures var dv, dt := values[k + 1] - values[k], times[k + 1] - times[k];
      (r.Finite? <==> dt != 0.0)
      && (dt == 0.0 ==> r == Div(dv, dt))
      && (dt != 0.0 && code == TransformFirstDerivative ==> r.x * dt == dv)
      && (dt != 0.0 && code != TransformFirstDerivative ==>
            OnGrid(r.x, Scale(code)) && -0.5 / Scale(code) <= r.x - dv / dt <= 0.5 / Scale(code)
            && (Abs(r.x - dv / dt) == 0.5 / Scale(code) ==> Abs(r.x) > Abs(dv / dt)))
  {
    RoundFor(code, Div(values[k + 1] - values[k], times[k + 1] - times[k]))
  }

  /** The derivative series: one slope per pair of neighbouring samples. */
  function Derivatives(code: int, times: seq<real>, values: seq<real>): (r: seq<Num>)
    requires IsDerivative(code)
    requires |values| == |times| >= 1
    ensures |r| == |times| - 1
  {
    seq(|times| - 1, k requires 0 <= k < |times| - 1 => Slope(code, times, values, k))
  }

  /** numpy's `diff`: the forward differences of the values, time ignored. */
  function Deltas(values: seq<real>): (r: seq<real>)
    requires |values| >= 1
    ensures |r| == |values| - 1
  {
    seq(|values| - 1, k requires 0 <= k < |values| - 1 => values[k + 1] - values[k])
  }

  /** The fetched values as float64 series values. */
  function Lift(values: seq<real>): seq<Num> {
    seq(|values|, k requires 0 <= k < |values| => Finite(values[k]))
  }

  /** A transformed series: time stamps with float64 values. */
  datatype Series = Series(times: seq<real>, values: seq<Num>)

  /**
   * What the transform switch does with the fetched window: the new series,
   * an unknown code, or a zero-length window that `make(…, count-1)` cannot size.
   */
  datatype Outcome = Applied(series: Series) | UnknownCode | NegativeLength

  function Transform(code: int, times: seq<real>, values: seq<real>): (r: Outcome)
    requires |values| == |times|
    ensures r == UnknownCode <==> !KnownTransform(code)
    ensures r == NegativeLength <==> KnownTransform(code) && code != TransformNone && |times| == 0
  {
    if code == TransformNone then Applied(Series(times, Lift(values)))
    else if !KnownTransform(code) then UnknownCode
    else if |times| == 0 then NegativeLength
    else if code == TransformDelta then Applied(Series(times[1..], Lift(Deltas(values))))
    else Applied(Series(times[1..], Derivatives(code, times, values)))
  }

  /** The derivative loop: fills fresh arrays one interval at a time. */
  method Derivative(code: int, times: array<real>, values: array<real>) returns (dtimes: array<real>, dvalues: array<Num>)
    requires IsDerivative(code)
    requires times.Length == values.Length >= 1
    ensures fresh(dtimes) && fresh(dvalues)
    ensures dtimes[..] == times[1..]
    ensures dvalues[..] == Derivatives(code, times[..], values[..])
  {
    var n := times.Length;
    dtimes := new real[n - 1];
    dvalues := new Num[n - 1];
    var i := 1;
    while i < n
      invariant 1 <= i <= n
      invariant forall k :: 0 <= k < i - 1 ==> dtimes[k] == times[k + 1]
      invariant forall k :: 0 <= k < i - 1 ==> dvalues[k] == Slope(code, times[..], values[..], k)
    {
      dtimes[i - 1] := times[i];
      var dt := times[i] - times[i - 1];
      var dvdt := Div(values[i] - values[i - 1], dt);
      if code == TransformFirstDerivative1Hz {
        dvdt := RoundTo(dvdt, 1.0);
      } else if code == TransformFirstDerivative10Hz {
        dvdt := RoundTo(dvdt, 10.0);
      } else if code == TransformFirstDerivative100Hz {
        dvdt := RoundTo(dvdt, 100.0);
      }
      dvalues[i - 1] := dvdt;
      i := i + 1;
    }
  }

  /** The delta loop: like the derivative with dt taken as 1. */
  method Delta(times: array<real>, values: array<real>) returns (dtimes: array<real>, dvalues: array<real>)
    requires times.Length == values.Length >= 1
    ensures fresh(dtimes) && fresh(dvalues)
    ensures dtimes[..] == times[1..]
    ensures dvalues[..] == Deltas(values[..])
  {
    var n := times.Length;
    dtimes := new real[n - 1];
    dvalues := new real[n - 1];
    var i := 1;
    while i < n
      invariant 1 <= i <= n
      invariant forall k :: 0 <= k < i - 1 ==> dtimes[k] == times[k + 1]
      invariant forall k :: 0 <= k < i - 1 ==> dvalues[k] == values[k + 1] - values[k]
    {
      dtimes[i - 1] := times[i];
      dvalues[i - 1] := values[i] - values[i - 1];
      i := i + 1;
    }
  }

  // ---------------------------------------------------------------------
  // Properties of the transforms

  /** Transform 0 leaves the window as it is. */
  lemma IdentityKeepsSeries(times: seq<real>, values: seq<real>)
    requires |values| == |times|
    ensures Transform(TransformNone, times, values) == Applied(Series(times, Lift(values)))
  {
  }

  /**
   * Every other known code on a non-empty window shortens it by one and
   * shifts the times: output time k is input time k+1, so nothing is reordered.
   */
  lemma TransformShiftsTimes(code: int, times: seq<real>, values: seq<real>)
    requires |values| == |times| >= 1
    requires KnownTransform(code) && code != TransformNone
    ensures Transform(code, times, values).Applied?
    ensures var s := Transform(code, times, values).series;
      |s.times| == |s.values| == |times| - 1
      && forall k :: 0 <= k < |times| - 1 ==> s.times[k] == times[k + 1]
  {
  }

  predicate Ascending(times: seq<real>) {
    forall i, j :: 0 <= i < j < |times| ==> times[i] <= times[j]
  }

  /** Ascending times stay ascending through every transform. */
  lemma TransformKeepsOrder(code: int, times: seq<real>, values: seq<real>)
    requires |values| == |times|
    requires Ascending(times)
    requires Transform(code, times, values).Applied?
    ensures Ascending(Transform(code, times, values).series.times)
  {
    if code != TransformNone {
      var s := Transform(code, times, values).series.times;
      assert s == times[1..];
      forall i, j | 0 <= i < j < |s| ensures s[i] <= s[j] {
        assert s[i] == times[i + 1] && s[j] == times[j + 1];
      }
    }
  }

  function Sum(s: seq<real>): real {
    if |s| == 0 then 0.0 else Sum(s[..|s| - 1]) + s[|s| - 1]
  }

  /** The deltas telescope: the first value plus the first k deltas is value k (numpy `cumsum` undoes `diff`). */
  lemma {:induction false} DeltasTelescope(values: seq<real>, k: nat)
    requires k < |values|
    ensures values[0] + Sum(Deltas(values)[..k]) == values[k]
  {
    if k > 0 {
      DeltasTelescope(values, k - 1);
      var d := Deltas(values);
      assert d[..k][..k - 1] == d[..k - 1];
    }
  }

  /** The unrounded derivative times the interval is the delta, wherever the interval is non-zero. */
  lemma DerivativeTimesIntervalIsDelta(times: seq<real>, values: seq<real>, k: nat)
    requires |values| == |times| && k + 1 < |times|
    requires times[k + 1] != times[k]
    ensures Derivatives(TransformFirstDerivative, times, values)[k].Finite?
    ensures Derivatives(TransformFirstDerivative, times, values)[k].x * (times[k + 1] - times[k])
            == Deltas(values)[k]
  {
  }

  /**
   * The rounded derivatives are multiples of their step (1, 0.1 or 0.01)
   * within half a step of the unrounded one, ties taken away from zero, and
   * are infinite or NaN exactly where it is.
   */
  lemma RoundedDerivativeIsClose(code: int, times: seq<real>, values: seq<real>, k: nat)
    requires IsDerivative(code) && code != TransformFirstDerivative
    requires |values| == |times| && k + 1 < |times|
    ensures var raw := Derivatives(TransformFirstDerivative, times, values)[k];
      var r := Derivatives(code, times, values)[k];
      (r.Finite? <==> raw.Finite?)
      && (raw.Finite? ==> OnGrid(r.x, Scale(code)))
      && (raw.Finite? ==> -0.5 / Scale(code) <= r.x - raw.x <= 0.5 / Scale(code))
      && (raw.Finite? && Abs(r.x - raw.x) == 0.5 / Scale(code) ==> Abs(r.x) > Abs(raw.x))
      && (!raw.Finite? ==> r == raw)
  {
  }

  /**
   * A constant series has derivative zero and delta zero wherever time
   * advances; where two samples share a time stamp the derivative is NaN.
   */
  lemma ConstantSeries(code: int, times: seq<real>, values: seq<real>, k: nat)
    requires IsDerivative(code)
    requires |values| == |times| && k + 1 < |times|
    requires forall i :: 0 <= i < |values| ==> values[i] == values[0]
    ensures Deltas(values)[k] == 0.0
    ensures times[k + 1] != times[k] ==> Derivatives(code, times, values)[k] == Finite(0.0)
    ensures times[k + 1] == times[k] ==> Derivatives(code, times, values)[k] == NaN
  {
    assert values[k + 1] - values[k] == 0.0;
    var dt := times[k + 1] - times[k];
    var d := Derivatives(code, times, values)[k];
    assert d == RoundFor(code, Div(0.0, dt));
    if dt != 0.0 {
      assert Div(0.0, dt) == Finite(0.0);
      RoundForZero(code);
    }
  }

  /** Zero is a multiple of every step, so every rounding keeps it. */
  lemma RoundForZero(code: int)
    requires IsDerivative(code)
    ensures RoundFor(code, Finite(0.0)) == Finite(0.0)
  {
    if code != TransformFirstDerivative {
      var scale := Scale(code);
      assert 0.0 * scale == 0.0;
      RoundToUnique(0.0, 0.0, scale);
    }
  }

  /** Delta on values 1, 2, 4 gives 1, 2, whatever the times. */
  lemma DeltaExample(times: seq<real>)
    requires |times| == 3
    ensures Transform(TransformDelta, times, [1.0, 2.0, 4.0])
         == Applied(Series(times[1..], [Finite(1.0), Finite(2.0)]))
  {
    assert Deltas([1.0, 2.0, 4.0]) == [1.0, 2.0];
  }

  /** Samples 1, 2, 4 one second apart have derivative 1, 2 at the two later times. */
  lemma DerivativeExample(t0: real)
    ensures Transform(TransformFirstDerivative, [t0, t0 + 1.0, t0 + 2.0], [1.0, 2.0, 4.0])
         == Applied(Series([t0 + 1.0, t0 + 2.0], [Finite(1.0), Finite(2.0)]))
  {
    var d := Derivatives(TransformFirstDerivative, [t0, t0 + 1.0, t0 + 2.0], [1.0, 2.0, 4.0]);
    assert d[0] == Finite(1.0) && d[1] == Finite(2.0);
  }

  /** The 1 Hz rounding takes 2.4 to 2 and 2.6 to 3. */
  lemma OneHzRoundingExample()
    ensures RoundFor(TransformFirstDerivative1Hz, Finite(2.4)) == Finite(2.0)
    ensures RoundFor(TransformFirstDerivative1Hz, Finite(2.6)) == Finite(3.0)
  {
    RoundUnique(2.4, 2.0);
    RoundUnique(2.6, 3.0);
  }
}
