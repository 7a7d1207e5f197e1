/**
 * One query end to end, and the batch that runs the queries in order: decode
 * the query, leave hidden ones out, split the query text, look the keyword's
 * type up, count the window's rows, fetch and convert them, transform the
 * series and assemble the frame, returning the endpoint frame (with or
 * without an error) whenever a step has nothing better to give.
 */
module Pipeline {
  import opened Wrappers
  import opened Numeric
  import opened QueryText
  import opened Units
  import opened Transforms
  import opened Fetch
  import opened Frames

  /** The query's own settings, decoded from its JSON. */
  datatype QueryModel = QueryModel(queryText: string, unitConversion: int, transform: int, refId: string, hide: bool)

  /** A query as the host hands it over: its ref id, its decoded JSON (or the decoder's message), its time range in Unix seconds. */
  datatype DataQuery = DataQuery(refId: string, model: Result<QueryModel, string>, from: real, to: real)

  /** A single-row statement's scan: the value, `sql.ErrNoRows`, or another error. */
  datatype RowScan<T> = Found(value: T) | NoRows | ScanFailed(msg: string)

  /** The select's result: its rows in ascending time, and the error that ends the stream after them, if any. */
  datatype Stream = Stream(rows: seq<Row>, trailing: Option<string>)

  /** The archive, as the three statements a query issues for a service, keyword and window. */
  datatype Store = Store(
    keywordType: (string, string) -> RowScan<string>,
    countRows: (string, string, real, real) -> RowScan<nat>,
    select: (string, string, real, real) -> Result<Stream, string>)

  datatype PanicReason = IndexOutOfRange | NegativeMakeLength

  /** A query either returns its response or panics. */
  datatype Outcome = Returned(response: Response) | Panicked(reason: PanicReason)

  /** The error `rows.Err()` reports: the trailing one, once the loop has asked for a row past the last. */
  function RowError(count: nat, stream: Stream): Option<Error> {
    if count > |stream.rows| && stream.trailing.Some? then Some(RowQueryError(stream.trailing.value)) else None
  }

  /** Fetch, transform and frame assembly, once the keyword's type and row count are known. */
  function Assemble(qm: QueryModel, from: real, to: real, kind: Kind, count: nat, stream: Stream): (o: Outcome)
    ensures o.Panicked? <==> count == 0 && KnownTransform(qm.transform) && qm.transform != TransformNone
    ensures o.Panicked? ==> o.reason == NegativeMakeLength
    ensures o.Returned? ==> |o.response.frames| == 1
    ensures o.Returned? && o.response.error.Some? && !o.response.error.value.RowQueryError? ==>
      o.response.frames == [EndpointFrame(from, to)]
  {
    var empty := EndpointFrame(from, to);
    match FetchSlots(kind, qm.unitConversion, count, stream.rows)
    case Failure(e) => Returned(Response([empty], Some(e)))
    case Success(w) =>
      match Transform(qm.transform, w.times, w.floats)
      case UnknownCode => Returned(Response([empty], Some(UnknownTransform(qm.transform))))
      case NegativeLength => Panicked(NegativeMakeLength)
      case Applied(s) =>
        var values := if kind == StringValued then Strings(w.strings) else Floats(s.values);
        Returned(Response([DataFrame(qm.refId, qm.queryText, values, s.times)], RowError(count, stream)))
  }

  /** The outcome of one query against the archive. */
  function Query(q: DataQuery, store: Store): (o: Outcome)
    ensures o.Returned? ==> |o.response.frames| <= 1
    ensures o == Panicked(IndexOutOfRange) <==>
      q.model.Success? && !q.model.value.hide && q.model.value.queryText != [] && Sep !in q.model.value.queryText
    ensures o.Panicked? ==> q.model.Success? && !q.model.value.hide && q.model.value.queryText != []
  {
    match q.model
    case Failure(msg) => Returned(Response([], Some(UnmarshalError(msg))))
    case Success(qm) =>
      var empty := EndpointFrame(q.from, q.to);
      if qm.hide then Returned(Response([], None))
      else if qm.queryText == [] then Returned(Response([empty], None))
      else match Parse(qm.queryText)
        case None => Panicked(IndexOutOfRange)
        case Some((service, keyword)) =>
          match store.keywordType(service, keyword)
          case NoRows => Returned(Response([empty], None))
          case ScanFailed(msg) => Returned(Response([empty], Some(StoreError(msg))))
          case Found(ktype) =>
            match store.countRows(service, keyword, q.from, q.to)
            case NoRows => Returned(Response([empty], None))
            case ScanFailed(msg) => Returned(Response([empty], Some(StoreError(msg))))
            case Found(count) =>
              match store.select(service, keyword, q.from, q.to)
              case Failure(msg) => Returned(Response([], Some(StoreError(msg))))
              case Success(stream) => Assemble(qm, q.from, q.to, KindOf(ktype), count, stream)
  }

  /** The fetch, transform and assembly steps on arrays, as the query runs them. */
  method RunAssemble(qm: QueryModel, from: real, to: real, kind: Kind, count: nat, stream: Stream) returns (o: Outcome)
    ensures o == Assemble(qm, from, to, kind, count, stream)
  {
    var empty := EndpointFrame(from, to);
    var times, floats, strings, err, exhausted := FetchWindow(kind, qm.unitConversion, count, stream.rows);
    if err.Some? {
      return Returned(Response([empty], err));
    }
    ghost var w := FetchSlots(kind, qm.unitConversion, count, stream.rows).value;
    var outTimes: seq<real>, outValues: seq<Num>;
    if qm.transform == TransformNone {
      outTimes, outValues := times[..], Lift(floats[..]);
    } else if IsDerivative(qm.transform) {
      if count == 0 {
        return Panicked(NegativeMakeLength);
      }
      var dtimes, dvalues := Derivative(qm.transform, times, floats);
      outTimes, outValues := dtimes[..], dvalues[..];
    } else if qm.transform == TransformDelta {
      if count == 0 {
        return Panicked(NegativeMakeLength);
      }
      var dtimes, dvalues := Delta(times, floats);
      outTimes, outValues := dtimes[..], Lift(dvalues[..]);
    } else {
      return Returned(Response([empty], Some(UnknownTransform(qm.transform))));
    }
    assert Transform(qm.transform, w.times, w.floats) == Applied(Series(outTimes, outValues));
    var rowErr := None;
    if exhausted && stream.trailing.Some? {
      rowErr := Some(RowQueryError(stream.trailing.value));
    }
    var values := if kind == StringValued then Strings(strings[..]) else Floats(outValues);
    o := Returned(Response([DataFrame(qm.refId, qm.queryText, values, outTimes)], rowErr));
  }

  /** `query`: the early exits, then the statements against the archive. */
  method RunQuery(q: DataQuery, store: Store) returns (o: Outcome)
    ensures o == Query(q, store)
  {
    if q.model.Failure? {
      return Returned(Response([], Some(UnmarshalError(q.model.error))));
    }
    var qm := q.model.value;
    if qm.hide {
      return Returned(Response([], None));
    }
    var empty := EndpointFrame(q.from, q.to);
    if qm.queryText == [] {
      return Returned(Response([empty], None));
    }
    var sk := Parse(qm.queryText);
    if sk.None? {
      return Panicked(IndexOutOfRange);
    }
    var (service, keyword) := sk.value;
    var keywordType := store.keywordType(service, keyword);
    if keywordType.NoRows? {
      return Returned(Response([empty], None));
    } else if keywordType.ScanFailed? {
      return Returned(Response([empty], Some(StoreError(keywordType.msg))));
    }
    var count := store.countRows(service, keyword, q.from, q.to);
    if count.NoRows? {
      return Returned(Response([empty], None));
    } else if count.ScanFailed? {
      return Returned(Response([empty], Some(StoreError(count.msg))));
    }
    var rows := store.select(service, keyword, q.from, q.to);
    if rows.Failure? {
      return Returned(Response([], Some(StoreError(rows.error))));
    }
    o := RunAssemble(qm, q.from, q.to, KindOf(keywordType.value), count.value, rows.value);
  }

  // ---------------------------------------------------------------------
  // The batch

  /** The batch's outcome: one response per ref id, a setup failure, or a query's panic. */
  datatype BatchOutcome = Responses(byRefId: map<string, Response>) | SetupFailed(msg: string) | BatchPanicked(reason: PanicReason)

  /** The responses of the first n queries, each stored under its ref id, a later query overwriting an earlier one. */
  function Collected(queries: seq<DataQuery>, store: Store, n: nat): (r: BatchOutcome)
    requires n <= |queries|
    ensures !r.SetupFailed?
    ensures r.Responses? ==> |r.byRefId| <= n
  {
    if n == 0 then Responses(map[])
    else
      var prev := Collected(queries, store, n - 1);
      if !prev.Responses? then prev
      else match Query(queries[n - 1], store)
        case Returned(r) => Responses(prev.byRefId[queries[n - 1].refId := r])
        case Panicked(reason) => BatchPanicked(reason)
  }

  /**
   * `QueryData`: a settings or connection failure (`setup`) fails the batch
   * before any query runs; otherwise the queries run in order.
   */
  method QueryData(setup: Option<string>, queries: seq<DataQuery>, store: Store) returns (o: BatchOutcome)
    ensures setup.Some? ==> o == SetupFailed(setup.value)
    ensures setup.None? ==> o == Collected(queries, store, |queries|)
  {
    if setup.Some? {
      return SetupFailed(setup.value);
    }
    var responses: map<string, Response> := map[];
    var i := 0;
    while i < |queries|
      invariant 0 <= i <= |queries|
      invariant Collected(queries, store, i) == Responses(responses)
    {
      var res := RunQuery(queries[i], store);
      if res.Panicked? {
        o := BatchPanicked(res.reason);
        PanicStopsBatch(queries, store, i + 1, |queries|);
        return;
      }
      responses := responses[queries[i].refId := res.response];
      i := i + 1;
    }
    o := Responses(responses);
  }

  /** Once a query has panicked, the rest of the batch does not run. */
  lemma {:induction false} PanicStopsBatch(queries: seq<DataQuery>, store: Store, n: nat, m: nat)
    requires n <= m <= |queries|
    requires Collected(queries, store, n).BatchPanicked?
    ensures Collected(queries, store, m) == Collected(queries, store, n)
    decreases m - n
  {
    if n < m {
      PanicStopsBatch(queries, store, n, m - 1);
    }
  }

  /** The batch holds a response for every ref id exactly when no query panicked. */
  lemma {:induction false} CollectedWithoutPanic(queries: seq<DataQuery>, store: Store, n: nat)
    requires n <= |queries|
    ensures Collected(queries, store, n).Responses? <==> forall i :: 0 <= i < n ==> Query(queries[i], store).Returned?
  {
    if n > 0 {
      CollectedWithoutPanic(queries, store, n - 1);
      if Collected(queries, store, n - 1).BatchPanicked? {
        PanicStopsBatch(queries, store, n - 1, n);
      }
    }
  }

  /** Without a panic, the ref ids of the batch's responses are those of its queries. */
  lemma {:induction false} CollectedKeys(queries: seq<DataQuery>, store: Store, n: nat)
    requires n <= |queries|
    requires Collected(queries, store, n).Responses?
    ensures Collected(queries, store, n).byRefId.Keys == (set i | 0 <= i < n :: queries[i].refId)
  {
    if n > 0 {
      CollectedKeys(queries, store, n - 1);
      assert (set i | 0 <= i < n :: queries[i].refId)
          == (set i | 0 <= i < n - 1 :: queries[i].refId) + {queries[n - 1].refId};
    }
  }

  /** Without a panic, each ref id maps to the response of the last query carrying it. */
  lemma {:induction false} CollectedLastWins(queries: seq<DataQuery>, store: Store, n: nat, i: nat)
    requires i < n <= |queries|
    requires Collected(queries, store, n).Responses?
    requires LastWithRefId(queries, n, i)
    ensures queries[i].refId in Collected(queries, store, n).byRefId
    ensures Query(queries[i], store).Returned?
    ensures Collected(queries, store, n).byRefId[queries[i].refId] == Query(queries[i], store).response
  {
    var prev := Collected(queries, store, n - 1);
    assert prev.Responses?;
    if i < n - 1 {
      assert queries[n - 1].refId != queries[i].refId;
      assert LastWithRefId(queries, n - 1, i);
      CollectedLastWins(queries, store, n - 1, i);
    }
  }

  /** Query i is the last of the first n queries with its ref id. */
  predicate LastWithRefId(queries: seq<DataQuery>, n: nat, i: nat)
    requires i < n <= |queries|
  {
    forall j :: i < j < n ==> queries[j].refId != queries[i].refId
  }

  // ---------------------------------------------------------------------
  // Properties of a single query

  /** A hidden query returns no frame and no error. */
  lemma HiddenQueryHasNoFrames(q: DataQuery, store: Store)
    requires q.model.Success? && q.model.value.hide
    ensures Query(q, store) == Returned(Response([], None))
  {
  }

  /** An empty query text returns the endpoint frame and no error. */
  lemma EmptyTextGivesEndpointFrame(q: DataQuery, store: Store)
    requires q.model.Success? && !q.model.value.hide && q.model.value.queryText == []
    ensures Query(q, store) == Returned(Response([EndpointFrame(q.from, q.to)], None))
  {
  }

  /** A non-empty query text without a dot has no keyword segment, and the query panics. */
  lemma TextWithoutDotPanics(q: DataQuery, store: Store)
    requires q.model.Success? && !q.model.value.hide && q.model.value.queryText != []
    requires Sep !in q.model.value.queryText
    ensures Query(q, store) == Panicked(IndexOutOfRange)
  {
  }

  /**
   * The metadata and count lookups: a missing row gives the endpoint frame
   * without an error, any other failure gives it with the store's error.
   */
  lemma LookupFailuresGiveEndpointFrame(q: DataQuery, store: Store, service: string, keyword: string)
    requires q.model.Success? && !q.model.value.hide && q.model.value.queryText != []
    requires Parse(q.model.value.queryText) == Some((service, keyword))
    ensures store.keywordType(service, keyword).NoRows? ==>
      Query(q, store) == Returned(Response([EndpointFrame(q.from, q.to)], None))
    ensures store.keywordType(service, keyword).ScanFailed? ==>
      Query(q, store) == Returned(Response([EndpointFrame(q.from, q.to)],
        Some(StoreError(store.keywordType(service, keyword).msg))))
    ensures store.keywordType(service, keyword).Found? && store.countRows(service, keyword, q.from, q.to).NoRows? ==>
      Query(q, store) == Returned(Response([EndpointFrame(q.from, q.to)], None))
    ensures store.keywordType(service, keyword).Found? && store.countRows(service, keyword, q.from, q.to).ScanFailed? ==>
      Query(q, store) == Returned(Response([EndpointFrame(q.from, q.to)],
        Some(StoreError(store.countRows(service, keyword, q.from, q.to).msg))))
  {
  }

  /** The query got past its lookups: the keyword has type `ktype`, the window `count` rows, and the select returned `stream`. */
  predicate ReachesFetch(q: DataQuery, store: Store, qm: QueryModel, ktype: string, count: nat, stream: Stream) {
    && q.model == Success(qm) && !qm.hide && qm.queryText != [] && Parse(qm.queryText).Some?
    && var service := Parse(qm.queryText).value.0;
    && var keyword := Parse(qm.queryText).value.1;
    && store.keywordType(service, keyword) == Found(ktype)
    && store.countRows(service, keyword, q.from, q.to) == Found(count)
    && store.select(service, keyword, q.from, q.to) == Success(stream)
  }

  /**
   * An unknown conversion on a scalar keyword whose window is not empty
   * gives only the endpoint frame and the conversion error (unless the first
   * row does not scan): no data frame is produced.
   */
  lemma UnknownConversionGivesEndpointFrame(q: DataQuery, store: Store, qm: QueryModel, ktype: string, count: nat, stream: Stream)
    requires ReachesFetch(q, store, qm, ktype, count, stream)
    requires KindOf(ktype) == Scalar && count >= 1 && !KnownConversion(qm.unitConversion)
    requires |stream.rows| == 0 || stream.rows[0].asFloat.Some?
    ensures Query(q, store)
         == Returned(Response([EndpointFrame(q.from, q.to)], Some(UnknownUnitConversion(qm.unitConversion))))
  {
    FetchUnknownConversion(Scalar, qm.unitConversion, count, stream.rows);
  }

  /** An unknown transform gives the endpoint frame and the transform error, for either kind of keyword. */
  lemma UnknownTransformGivesEndpointFrame(q: DataQuery, store: Store, qm: QueryModel, ktype: string, count: nat, stream: Stream)
    requires ReachesFetch(q, store, qm, ktype, count, stream)
    requires FetchSlots(KindOf(ktype), qm.unitConversion, count, stream.rows).Success?
    requires !KnownTransform(qm.transform)
    ensures Query(q, store)
         == Returned(Response([EndpointFrame(q.from, q.to)], Some(UnknownTransform(qm.transform))))
  {
  }

  /** An empty window with a derivative or delta transform panics: the result arrays would have length -1. */
  lemma EmptyWindowWithTransformPanics(q: DataQuery, store: Store, qm: QueryModel, ktype: string, stream: Stream)
    requires ReachesFetch(q, store, qm, ktype, 0, stream)
    requires KnownTransform(qm.transform) && qm.transform != TransformNone
    ensures Query(q, store) == Panicked(NegativeMakeLength)
  {
    assert FetchSlots(KindOf(ktype), qm.unitConversion, 0, stream.rows) == Success(Window([], [], []));
  }

  /** Every error except the stream's trailing one comes without a data frame. */
  lemma ErrorsComeWithoutData(q: DataQuery, store: Store)
    requires Query(q, store).Returned?
    ensures var r := Query(q, store).response;
      r.error.Some? && !r.error.value.RowQueryError? ==> r.frames == [] || r.frames == [EndpointFrame(q.from, q.to)]
  {
  }

  /**
   * A scalar keyword whose fetch succeeds and whose transform is known
   * (and sized) gets one data frame: ref id and name from the query, the
   * unnamed value field then the time field, of equal length: the count, or
   * one less after a derivative or delta.
   */
  lemma ScalarDataFrame(q: DataQuery, store: Store, qm: QueryModel, ktype: string, count: nat, stream: Stream)
    requires ReachesFetch(q, store, qm, ktype, count, stream)
    requires KindOf(ktype) == Scalar
    requires FetchSlots(Scalar, qm.unitConversion, count, stream.rows).Success?
    requires KnownTransform(qm.transform) && (count == 0 ==> qm.transform == TransformNone)
    ensures Query(q, store).Returned?
    ensures var r := Query(q, store).response;
      |r.frames| == 1 && r.error == RowError(count, stream)
      && r.frames[0].refId == qm.refId && r.frames[0].name == qm.queryText
      && |r.frames[0].fields| == 2
      && r.frames[0].fields[0].name == "" && r.frames[0].fields[0].column.Floats?
      && r.frames[0].fields[1].name == "time" && r.frames[0].fields[1].column.Times?
      && Length(r.frames[0].fields[0].column) == Length(r.frames[0].fields[1].column)
         == if qm.transform == TransformNone then count else count - 1
  {
    var w := FetchSlots(Scalar, qm.unitConversion, count, stream.rows).value;
    if qm.transform != TransformNone {
      TransformShiftsTimes(qm.transform, w.times, w.floats);
    }
  }

  /**
   * A string keyword's frame carries the fetched strings untouched, but its
   * times still go through the transform: after a derivative or delta there
   * is one value more than there are times.
   */
  lemma StringDataFrame(q: DataQuery, store: Store, qm: QueryModel, ktype: string, count: nat, stream: Stream)
    requires ReachesFetch(q, store, qm, ktype, count, stream)
    requires KindOf(ktype) == StringValued
    requires FetchSlots(StringValued, qm.unitConversion, count, stream.rows).Success?
    requires KnownTransform(qm.transform) && (count == 0 ==> qm.transform == TransformNone)
    ensures Query(q, store).Returned?
    ensures var r := Query(q, store).response;
      var w := FetchSlots(StringValued, qm.unitConversion, count, stream.rows).value;
      |r.frames| == 1 && r.frames[0].refId == qm.refId && r.frames[0].name == qm.queryText
      && r.frames[0].fields[0] == Field("", Strings(w.strings))
      && r.frames[0].fields[1] == Field("time", Times(if qm.transform == TransformNone then w.times else w.times[1..]))
      && Length(r.frames[0].fields[0].column) == count
      && Length(r.frames[0].fields[1].column) == if qm.transform == TransformNone then count else count - 1
  {
  }

  /**
   * A stream error after the last row is reported, beside the data frame,
   * only when the loop asked for more rows than the result delivered.
   */
  lemma TrailingErrorNeedsShortResult(q: DataQuery, store: Store, qm: QueryModel, ktype: string, count: nat, stream: Stream)
    requires ReachesFetch(q, store, qm, ktype, count, stream)
    requires Query(q, store).Returned? && |Query(q, store).response.frames| == 1
    requires Query(q, store).response.frames[0] != EndpointFrame(q.from, q.to)
    ensures Query(q, store).response.error.Some? <==> count > |stream.rows| && stream.trailing.Some?
  {
    var kind := KindOf(ktype);
    var f := FetchSlots(kind, qm.unitConversion, count, stream.rows);
    if f.Success? {
      var t := Transform(qm.transform, f.value.times, f.value.floats);
    }
  }

  /** Samples 1, 2 and 4 one second apart, with the plain derivative, give values 1 and 2 at the two later times. */
  lemma DerivativeScenario(q: DataQuery, store: Store, qm: QueryModel, ktype: string, stream: Stream, t0: real)
    requires ReachesFetch(q, store, qm, ktype, 3, stream)
    requires KindOf(ktype) == Scalar && qm.unitConversion == UnitConvertNone && qm.transform == TransformFirstDerivative
    requires stream.rows == [Row(t0, None, Some(1.0)), Row(t0 + 1.0, None, Some(2.0)), Row(t0 + 2.0, None, Some(4.0))]
    ensures Query(q, store) == Returned(Response(
      [DataFrame(qm.refId, qm.queryText, Floats([Finite(1.0), Finite(2.0)]), [t0 + 1.0, t0 + 2.0])], None))
  {
    var w := FetchSlots(Scalar, UnitConvertNone, 3, stream.rows).value;
    assert w.times == [t0, t0 + 1.0, t0 + 2.0];
    assert w.floats == [1.0, 2.0, 4.0];
    DerivativeExample(t0);
  }
}
