/**
 * The per-sample unit conversion of scalar keywords, selected by the
 * `UNIT_CONVERT_*` codes 0 to 5. Codes 4 and 5 keep the arithmetic of the
 * source although their names describe the opposite direction.
 */
module Units {
  import opened Wrappers
  import opened Numeric

  const UnitConvertNone: int := 0
  const UnitConvertDegToRad: int := 1
  const UnitConvertRadToDeg: int := 2
  const UnitConvertRadToArcsec: int := 3
  const UnitConvertKToC: int := 4
  const UnitConvertCToK: int := 5

  predicate KnownConversion(code: int) {
    UnitConvertNone <= code <= UnitConvertCToK
  }

  /** The converted value, or `None` for a code outside the enumeration. */
  function Convert(code: int, x: real): (r: Option<real>)
    ensures r.Some? <==> KnownConversion(code)
  {
    if code == UnitConvertNone then Some(x)
    else if code == UnitConvertDegToRad then Some(x * (Pi / 180.0))
    else if code == UnitConvertRadToDeg then Some(x * (180.0 / Pi))
    else if code == UnitConvertRadToArcsec then Some(x * (3600.0 * 180.0 / Pi))
    else if code == UnitConvertKToC then Some(x + 273.15)
    else if code == UnitConvertCToK then Some(x - 273.15)
    else None
  }

  /** Code 0 is the identity. */
  lemma ConvertNoneIsIdentity(x: real)
    ensures Convert(UnitConvertNone, x) == Some(x)
  {
  }

  /** Radians to degrees undoes degrees to radians, and the other way round. */
  lemma DegRadRoundTrip(x: real)
    ensures Convert(UnitConvertRadToDeg, Convert(UnitConvertDegToRad, x).value) == Some(x)
    ensures Convert(UnitConvertDegToRad, Convert(UnitConvertRadToDeg, x).value) == Some(x)
  {
    var k, m := Pi / 180.0, 180.0 / Pi;
    assert k * m == 1.0;
    var y := Convert(UnitConvertDegToRad, x).value;
    assert y == x * k;
    assert Convert(UnitConvertRadToDeg, y) == Some(y * m);
    assert y * m == x * (k * m) == x;
    var z := Convert(UnitConvertRadToDeg, x).value;
    assert z == x * m;
    assert Convert(UnitConvertDegToRad, z) == Some(z * k);
    assert z * k == x * (k * m) == x;
  }

  /** Arcseconds are 3600 times degrees. */
  lemma ArcsecIsDegTimes3600(x: real)
    ensures Convert(UnitConvertRadToArcsec, x).value == 3600.0 * Convert(UnitConvertRadToDeg, x).value
  {
    var m := 180.0 / Pi;
    assert 3600.0 * 180.0 / Pi == 3600.0 * m;
    assert x * (3600.0 * m) == 3600.0 * (x * m);
  }

  /**
   * Code 4 adds 273.15 (a Celsius reading becomes Kelvin) although it is
   * named Kelvin to Celsius, code 5 subtracts it, and each undoes the other.
   */
  lemma TemperatureCodesInverse(x: real)
    ensures Convert(UnitConvertKToC, x) == Some(x + 273.15)
    ensures Convert(UnitConvertCToK, x) == Some(x - 273.15)
    ensures Convert(UnitConvertCToK, Convert(UnitConvertKToC, x).value) == Some(x)
    ensures Convert(UnitConvertKToC, Convert(UnitConvertCToK, x).value) == Some(x)
  {
  }

  /** The angle conversions preserve order. */
  lemma AngleConversionsMonotonic(code: int, x: real, y: real)
    requires UnitConvertDegToRad <= code <= UnitConvertRadToArcsec
    requires x <= y
    ensures Convert(code, x).value <= Convert(code, y).value
  {
    var c := if code == UnitConvertDegToRad then Pi / 180.0
             else if code == UnitConvertRadToDeg then 180.0 / Pi
             else 3600.0 * 180.0 / Pi;
    assert c > 0.0;
    assert Convert(code, x).value == x * c && Convert(code, y).value == y * c;
    assert (y - x) * c >= 0.0;
  }
}
