/**
 * The count-bounded fetch: the number of rows counted in the window sizes
 * three zero-filled arrays (times, float values, string values), and the
 * loop then reads at most that many rows of the ordered result, scanning
 * each into reused temporaries and converting scalar values on the way.
 * When the result runs out early the temporaries keep the last row, so the
 * remaining slots repeat it; rows beyond the count are never read.
 */
module Fetch {
  import opened Wrappers
  import opened Units
  import opened Frames

  /** The metadata `type` column decides the kind: only `KTL_STRING` keywords hold strings. */
  datatype Kind = Scalar | StringValued

  function KindOf(keywordType: string): Kind {
    if keywordType == "KTL_STRING" then StringValued else Scalar
  }

  /**
   * One result row: its time column (Unix seconds) and its value column as
   * Scan would deliver it into a string or into a float64, `None` where
   * Scan refuses.
   */
  datatype Row = Row(time: real, asText: Option<string>, asFloat: Option<real>)

  predicate ScanOk(kind: Kind, r: Row) {
    if kind == StringValued then r.asText.Some? else r.asFloat.Some?
  }

  /** The filled arrays: `times`, `values_floats` and `values_strings`. */
  datatype Window = Window(times: seq<real>, floats: seq<real>, strings: seq<string>)

  /** The row whose scan the temporaries hold at slot i: row i, else the last row, else none yet. */
  function Source(rows: seq<Row>, i: nat): Option<Row> {
    if i < |rows| then Some(rows[i])
    else if |rows| > 0 then Some(rows[|rows| - 1])
    else None
  }

  function SlotTime(rows: seq<Row>, i: nat): real {
    match Source(rows, i)
    case Some(r) => r.time
    case None => 0.0
  }

  // The two below are read only where the source row scanned successfully.

  function SlotFloat(rows: seq<Row>, i: nat): real {
    match Source(rows, i)
    case Some(Row(_, _, Some(x))) => x
    case _ => 0.0
  }

  function SlotText(rows: seq<Row>, i: nat): string {
    match Source(rows, i)
    case Some(Row(_, Some(s), _)) => s
    case _ => ""
  }

  /**
   * The outcome of the fetch loop for `count` slots. A scalar keyword with an
   * unknown conversion fails on the first slot, after the first row's scan;
   * otherwise any row among the first `count` that does not scan fails it.
   */
  function FetchSlots(kind: Kind, conv: int, count: nat, rows: seq<Row>): (r: Result<Window, Error>)
    ensures r.Success? ==> |r.value.times| == |r.value.floats| == |r.value.strings| == count
    ensures r.Success? && kind == Scalar && count >= 1 ==> KnownConversion(conv)
    ensures r.Failure? ==> r.error == ScanError || r.error == UnknownUnitConversion(conv)
  {
    if count >= 1 && kind == Scalar && !KnownConversion(conv) then
      if |rows| >= 1 && !ScanOk(kind, rows[0]) then Failure(ScanError)
      else Failure(UnknownUnitConversion(conv))
    else if exists i :: 0 <= i < count && i < |rows| && !ScanOk(kind, rows[i]) then
      Failure(ScanError)
    else
      Success(Window(
        seq(count, i requires 0 <= i < count => SlotTime(rows, i)),
        seq(count, i requires 0 <= i < count =>
          if kind == Scalar then Convert(conv, SlotFloat(rows, i)).value else 0.0),
        seq(count, i requires 0 <= i < count => if kind == StringValued then SlotText(rows, i) else "")))
  }

  /**
   * The fetch loop over preallocated arrays. `exhausted` tells whether
   * `rows.Next()` ever reported the end of the result, which is when a
   * trailing stream error becomes visible.
   */
  method FetchWindow(kind: Kind, conv: int, count: nat, rows: seq<Row>)
    returns (times: array<real>, floats: array<real>, strings: array<string>, err: Option<Error>, exhausted: bool)
    ensures fresh(times) && fresh(floats) && fresh(strings)
    ensures err.None? <==> FetchSlots(kind, conv, count, rows).Success?
    ensures err.Some? ==> FetchSlots(kind, conv, count, rows) == Failure(err.value)
    ensures err.None? ==> FetchSlots(kind, conv, count, rows).value == Window(times[..], floats[..], strings[..])
    ensures err.None? ==> exhausted == (count > |rows|)
  {
    times := new real[count](_ => 0.0);
    floats := new real[count](_ => 0.0);
    strings := new string[count](_ => "");
    err := None;
    exhausted := false;
    var timetemp, valtempFloat, valtempString := 0.0, 0.0, "";
    var next := 0;
    var i := 0;
    while i < count
      invariant 0 <= i <= count
      invariant next == if i < |rows| then i else |rows|
      invariant exhausted == (i > |rows|)
      invariant forall j :: 0 <= j < next ==> ScanOk(kind, rows[j])
      invariant kind == Scalar && i >= 1 ==> KnownConversion(conv)
      invariant next == 0 ==> timetemp == 0.0 && valtempFloat == 0.0 && valtempString == ""
      invariant next > 0 ==> timetemp == rows[next - 1].time
      invariant next > 0 && kind == Scalar ==> rows[next - 1].asFloat == Some(valtempFloat)
      invariant next > 0 && kind == StringValued ==> rows[next - 1].asText == Some(valtempString)
      invariant forall j :: 0 <= j < i ==> times[j] == SlotTime(rows, j)
      invariant forall j :: 0 <= j < count ==>
        floats[j] == if j < i && kind == Scalar then Convert(conv, SlotFloat(rows, j)).value else 0.0
      invariant forall j :: 0 <= j < count ==>
        strings[j] == if j < i && kind == StringValued then SlotText(rows, j) else ""
    {
      if next < |rows| {
        var r := rows[next];
        next := next + 1;
        if kind == StringValued {
          if r.asText.None? {
            err := Some(ScanError);
            return;
          }
          timetemp, valtempString := r.time, r.asText.value;
        } else {
          if r.asFloat.None? {
            err := Some(ScanError);
            return;
          }
          timetemp, valtempFloat := r.time, r.asFloat.value;
        }
      } else {
        exhausted := true;
      }
      times[i] := timetemp;
      if kind == StringValued {
        strings[i] := valtempString;
      } else {
        var val := Convert(conv, valtempFloat);
        if val.None? {
          err := Some(UnknownUnitConversion(conv));
          return;
        }
        floats[i] := val.value;
      }
      i := i + 1;
    }
    assert times[..] == FetchSlots(kind, conv, count, rows).value.times;
    assert floats[..] == FetchSlots(kind, conv, count, rows).value.floats;
    assert strings[..] == FetchSlots(kind, conv, count, rows).value.strings;
  }

  // ---------------------------------------------------------------------
  // Properties of the fetch

  /** Slot i of a successful fetch holds row i, converted, whenever the result has a row i. */
  lemma FetchSlotHoldsRow(kind: Kind, conv: int, count: nat, rows: seq<Row>, i: nat)
    requires FetchSlots(kind, conv, count, rows).Success?
    requires i < count && i < |rows|
    ensures var w := FetchSlots(kind, conv, count, rows).value;
      w.times[i] == rows[i].time
      && (kind == Scalar ==> rows[i].asFloat.Some? && w.floats[i] == Convert(conv, rows[i].asFloat.value).value)
      && (kind == StringValued ==> rows[i].asText.Some? && w.strings[i] == rows[i].asText.value)
  {
    assert ScanOk(kind, rows[i]);
  }

  /**
   * Once the result runs out, every further slot repeats the last row's
   * slot; with no rows at all the slots keep the temporaries' zero values.
   */
  lemma FetchPadsWithLastRow(kind: Kind, conv: int, count: nat, rows: seq<Row>, i: nat)
    requires FetchSlots(kind, conv, count, rows).Success?
    requires |rows| <= i < count
    ensures var w := FetchSlots(kind, conv, count, rows).value;
      if |rows| > 0 then
        w.times[i] == w.times[|rows| - 1] && w.floats[i] == w.floats[|rows| - 1]
        && w.strings[i] == w.strings[|rows| - 1]
      else
        w.times[i] == 0.0 && w.strings[i] == ""
        && w.floats[i] == (if kind == Scalar then Convert(conv, 0.0).value else 0.0)
  {
  }

  /** Rows beyond the count are never consumed: the fetch sees only the first `count` rows. */
  lemma FetchIgnoresRowsBeyondCount(kind: Kind, conv: int, count: nat, rows: seq<Row>)
    requires count <= |rows|
    ensures FetchSlots(kind, conv, count, rows) == FetchSlots(kind, conv, count, rows[..count])
  {
    var cut := rows[..count];
    assert forall i :: 0 <= i < count ==> cut[i] == rows[i];
    assert forall i :: 0 <= i < count ==> Source(cut, i) == Source(rows, i);
    if count >= 1 && kind == Scalar && !KnownConversion(conv) {
    } else if exists i :: 0 <= i < count && i < |rows| && !ScanOk(kind, rows[i]) {
      var i :| 0 <= i < count && i < |rows| && !ScanOk(kind, rows[i]);
      assert !ScanOk(kind, cut[i]);
    } else {
      assert FetchSlots(kind, conv, count, rows).value == FetchSlots(kind, conv, count, cut).value;
    }
  }

  /**
   * An unknown unit conversion on a scalar keyword is detected on the first
   * slot, so only when the count is at least one: it is the fetch's error
   * unless the first row fails to scan. A count of zero never detects it.
   */
  lemma FetchUnknownConversion(kind: Kind, conv: int, count: nat, rows: seq<Row>)
    requires kind == Scalar && !KnownConversion(conv)
    ensures count == 0 ==> FetchSlots(kind, conv, count, rows) == Success(Window([], [], []))
    ensures count >= 1 && (|rows| == 0 || ScanOk(kind, rows[0])) ==>
      FetchSlots(kind, conv, count, rows) == Failure(UnknownUnitConversion(conv))
  {
  }

  /** String keywords never consult the conversion: their float slots stay zero. */
  lemma FetchStringIgnoresConversion(conv: int, conv': int, count: nat, rows: seq<Row>)
    ensures FetchSlots(StringValued, conv, count, rows) == FetchSlots(StringValued, conv', count, rows)
    ensures FetchSlots(StringValued, conv, count, rows).Success? ==>
      forall i :: 0 <= i < count ==> FetchSlots(StringValued, conv, count, rows).value.floats[i] == 0.0
  {
    var a, b := FetchSlots(StringValued, conv, count, rows), FetchSlots(StringValued, conv', count, rows);
    if a.Success? {
      assert a.value.floats == b.value.floats;
    }
  }

  predicate RowsAscending(rows: seq<Row>) {
    forall i, j :: 0 <= i < j < |rows| ==> rows[i].time <= rows[j].time
  }

  /** The store's ascending order survives the fetch: padding repeats the last time, never an earlier one. */
  lemma FetchKeepsOrder(kind: Kind, conv: int, count: nat, rows: seq<Row>)
    requires RowsAscending(rows)
    requires FetchSlots(kind, conv, count, rows).Success?
    ensures var t := FetchSlots(kind, conv, count, rows).value.times;
      forall i, j :: 0 <= i < j < count ==> t[i] <= t[j]
  {
    var t := FetchSlots(kind, conv, count, rows).value.times;
    forall i, j | 0 <= i < j < count ensures t[i] <= t[j] {
      assert t[i] == SlotTime(rows, i) && t[j] == SlotTime(rows, j);
    }
  }
}
