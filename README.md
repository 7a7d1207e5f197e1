# Keyword archive query pipeline, modelled in Dafny

This project models the per-query pipeline of the Keck keyword-archive Grafana
datasource (`KeywordDatasource.query` in `pkg/plugin/datasource.go`). A query names a
keyword as `service.keyword` and asks for its samples in a time window; the
backend:

1. decodes the query and returns nothing for a hidden query;
2. returns a frame holding only the window's two endpoints for an empty query text;
3. splits the text at its dots into service and keyword (a text without a dot panics);
4. looks up the keyword's type (`KTL_STRING` keywords hold strings, all others floats)
   and counts the rows in the window. A missing row gives the endpoint frame without
   an error. Any other failure gives the endpoint frame with the error;
5. fetches the ordered rows into three zero-filled arrays sized by that count, converting
   scalar values with unit conversion 0–5. When the result runs out early, the remaining
   slots repeat the last row. Rows beyond the count are never read;
6. applies transform 0–5: the identity, the first derivative dv/dt (unrounded, or rounded
   to 1, 0.1 or 0.01), or the delta (numpy `diff`). The derivative and delta drop the
   first sample;
7. builds a frame named after the query text, carrying the query's ref id, with an
   unnamed value field and a `time` field.

A batch runs its queries in order and stores each response under the query's ref id.

Files, one module each:

- `wrappers.dfy`: Option and Result.
- `numeric.dfy`: Go's `math.Round` and `math.Pi`, and float64 division whose zero divisor
  gives ±Inf or NaN (`Num`).
- `units.dfy`: the unit conversions.
- `querytext.dfy`: `strings.Split` on dots, the editor's `service + '.' + keyword`, and
  their round trips.
- `transforms.dfy`: the transform switch as a specification function. The derivative and
  delta loops are array methods proved against it.
- `frames.dfy`: errors, fields, frames, responses.
- `fetch.dfy`: the count-bounded fetch loop as an array method, proved against a
  closed-form description of each slot.
- `pipeline.dfy`: the query as a specification function, `RunQuery` (the imperative query,
  proved equal to it), the batch, and the end-to-end properties.

The archive is an input: a `Store` record of three total functions. The metadata lookup
takes the service and keyword; the count and the select also take the window.
A query either returns a response or panics (`Outcome`).

A few plain definitions name the pieces the properties below talk about, and carry no
contract of their own (line numbers are in `pkg/plugin/datasource.go`): `Frames.EndpointFrame` (the fallback frame, one `time` field holding
the window's two endpoints, lines 188-190), `Frames.DataFrame` (the success frame: ref id,
name, an unnamed value field and a `time` field, lines 436-449), `Fetch.KindOf` (only
`KTL_STRING` keywords hold strings, lines 298-302), `Pipeline.RowError` (the `rows.Err()`
report, lines 428-433) and `Transforms.Lift` (fetched values as float64 series values).

## Model

| member | source | states |
|---|---|---|
| `Numeric.Round` | pkg/plugin/datasource.go:385-386 | `math.Round`: an integral value within 1/2 of x, with ties rounded away from zero. These conditions determine the result. |
| `Numeric.RoundUnique` | pkg/plugin/datasource.go:385-386 | Any integral value within 1/2 of x, with ties resolved away from zero, equals `Round(x)`. |
| `Numeric.RoundNegate` | pkg/plugin/datasource.go:385-386 | `Round(-x) == -Round(x)`. |
| `Numeric.RoundIntegral` | pkg/plugin/datasource.go:385-386 | An integral value rounds to itself. |
| `Numeric.RoundTo` | pkg/plugin/datasource.go:387-390 | `math.Round(v*scale)/scale` is a whole multiple of 1/scale within 0.5/scale of v, with ties taken away from zero. Infinities and NaN pass through unchanged. |
| `Numeric.Nearest` | pkg/plugin/datasource.go:387-390 | For a finite x, `math.Round(x*scale)/scale` is a whole multiple of 1/scale within 0.5/scale of x, with ties taken away from zero. |
| `Numeric.RoundToUnique` | pkg/plugin/datasource.go:387-390 | Any multiple of 1/scale within 0.5/scale of x, with ties away from zero, is the value `RoundTo` gives, so its contract determines it. |
| `Numeric.Div` | pkg/plugin/datasource.go:382-383 | dv/dt is finite with `r*dt == dv` exactly when dt ≠ 0. A zero dt gives +Inf, -Inf or NaN according to the sign of dv. |
| `Units.Convert` | pkg/plugin/datasource.go:326-356 | A conversion exists exactly for codes 0–5. |
| `Units.ConvertNoneIsIdentity` | pkg/plugin/datasource.go:328-330 | Code 0 returns the value unchanged. |
| `Units.DegRadRoundTrip` | pkg/plugin/datasource.go:332-338 | Codes 1 and 2 undo each other, in both orders. |
| `Units.ArcsecIsDegTimes3600` | pkg/plugin/datasource.go:336-342 | Code 3 gives 3600 times code 2. |
| `Units.TemperatureCodesInverse` | pkg/plugin/datasource.go:344-350 | Code 4 adds 273.15 despite its Kelvin-to-Celsius name, and code 5 subtracts 273.15. Codes 4 and 5 undo each other. |
| `Units.AngleConversionsMonotonic` | pkg/plugin/datasource.go:332-342 | The angle conversions preserve order. |
| `QueryText.Split` | pkg/plugin/datasource.go:206 | `strings.Split` on '.': at least one segment, no segment contains a dot, and there is exactly one segment iff the text has no dot. |
| `QueryText.SplitNoSep` | pkg/plugin/datasource.go:206 | A dot-free text splits into itself alone. |
| `QueryText.SplitAt` | pkg/plugin/datasource.go:206 | Splitting `a.b` with a dot-free `a` gives `a` followed by the segments of `b`. |
| `QueryText.FirstSep` | pkg/plugin/datasource.go:206 | Gives the position of the first dot. |
| `QueryText.FirstSegment` | pkg/plugin/datasource.go:207 | The first segment is the text up to its first dot, or the whole text. |
| `QueryText.JoinSplit` | pkg/plugin/datasource.go:206 | Joining the segments with dots restores the text. |
| `QueryText.SplitJoin` | pkg/plugin/datasource.go:206 | Splitting a dot-join of dot-free segments gives back those segments. |
| `QueryText.Parse` | pkg/plugin/datasource.go:206-208 | Service and keyword are defined exactly when the text has a dot, and neither contains a dot. |
| `QueryText.ParsePrefix` | pkg/plugin/datasource.go:206-208 | The text begins with `service.keyword`, followed by its end or by a further dot. |
| `QueryText.ParseIgnoresTail` | pkg/plugin/datasource.go:207-208 | Segments after the second are ignored. |
| `QueryText.Compose` | src/components/QueryEditor.tsx:26 | The editor's text is the service, a dot, then the keyword. When neither part contains a dot, that dot is the text's only one. |
| `QueryText.ParseCompose` | src/components/QueryEditor.tsx:26 | The editor's `service + '.' + keyword` parses back to the same service and keyword when neither contains a dot. |
| `Transforms.RoundFor` | pkg/plugin/datasource.go:385-391 | Code 1 leaves dv/dt as it is. Codes 2–4 give a multiple of their step (1, 0.1, 0.01) within half a step of dv/dt, with ties away from zero. Finiteness is kept, and infinities and NaN pass through. |
| `Transforms.Slope` | pkg/plugin/datasource.go:381-391 | One interval's derivative is finite exactly when time advances. Code 1 then gives `r*dt == dv`. Codes 2–4 give a multiple of the step within half a step of dv/dt, with ties away from zero. A zero interval gives the IEEE quotient (±Inf or NaN). |
| `Transforms.Derivatives` | pkg/plugin/datasource.go:376-394 | The derivative series has one entry fewer than the samples. |
| `Transforms.Deltas` | pkg/plugin/datasource.go:408-414 | The delta series has one entry fewer than the values. |
| `Transforms.Transform` | pkg/plugin/datasource.go:365-426 | The transform switch reports an unknown code exactly for codes outside 0–5. It reports the `make(count-1)` failure exactly for codes 1–5 on an empty window. |
| `Transforms.Derivative` | pkg/plugin/datasource.go:370-398 | The derivative loop fills fresh arrays: output times are input times 1.., and output values equal `Derivatives`. |
| `Transforms.Delta` | pkg/plugin/datasource.go:400-418 | The delta loop fills fresh arrays: output times are input times 1.., and output values equal `Deltas`. |
| `Transforms.IdentityKeepsSeries` | pkg/plugin/datasource.go:367-368 | Transform 0 leaves times and values unchanged. |
| `Transforms.TransformShiftsTimes` | pkg/plugin/datasource.go:373-378 | Codes 1–5 on n ≥ 1 samples give n−1 times and n−1 values, with output time k equal to input time k+1. |
| `Transforms.TransformKeepsOrder` | pkg/plugin/datasource.go:376-379 | Ascending times stay ascending through every transform. |
| `Transforms.DeltasTelescope` | pkg/plugin/datasource.go:408-414 | The first value plus the first k deltas equals value k, so cumulative sums undo `diff`. |
| `Transforms.DerivativeTimesIntervalIsDelta` | pkg/plugin/datasource.go:381-383 | Where dt ≠ 0, the unrounded derivative times dt equals the delta. |
| `Transforms.RoundedDerivativeIsClose` | pkg/plugin/datasource.go:385-391 | Codes 2, 3 and 4 give multiples of 1, 0.1 and 0.01 within 0.5, 0.05 and 0.005 of the unrounded derivative, with ties away from zero. They are non-finite exactly where it is, and equal to it there. |
| `Transforms.RoundForZero` | pkg/plugin/datasource.go:385-391 | Every derivative code's rounding keeps a zero slope at zero. |
| `Transforms.ConstantSeries` | pkg/plugin/datasource.go:381-393 | On a constant series every delta is 0. Every derivative is 0 where time advances and NaN where two samples share a time. |
| `Transforms.DeltaExample` | pkg/plugin/datasource.go:405-418 | Values 1, 2, 4 give deltas 1, 2 at the two later times. |
| `Transforms.DerivativeExample` | pkg/plugin/datasource.go:373-398 | Values 1, 2, 4 one second apart give derivatives 1, 2. |
| `Transforms.OneHzRoundingExample` | pkg/plugin/datasource.go:385-386 | 1 Hz rounding takes 2.4 to 2 and 2.6 to 3. |
| `Fetch.FetchSlots` | pkg/plugin/datasource.go:280-362 | A successful fetch fills exactly `count` slots in each array. Success for a scalar keyword with count ≥ 1 implies a known conversion. The only failures are a scan error and an unknown conversion. |
| `Fetch.FetchWindow` | pkg/plugin/datasource.go:280-362 | The loop over zero-filled arrays of length `count` ends as `FetchSlots` describes. It reports whether `rows.Next()` ran out, which happens exactly when count > rows. |
| `Fetch.FetchSlotHoldsRow` | pkg/plugin/datasource.go:295-323 | Slot i holds row i's time and its converted value (scalar) or string. |
| `Fetch.FetchPadsWithLastRow` | pkg/plugin/datasource.go:295-322 | Past the end of the result, every slot repeats the last row's slot. With no rows, slots keep the zero temporaries. |
| `Fetch.FetchIgnoresRowsBeyondCount` | pkg/plugin/datasource.go:291-292 | Fetching `count` slots from any longer result equals fetching from its first `count` rows. |
| `Fetch.FetchUnknownConversion` | pkg/plugin/datasource.go:352-356 | For a scalar keyword, an unknown conversion fails the fetch when count ≥ 1, unless the first row fails to scan. It goes unnoticed when count = 0. |
| `Fetch.FetchStringIgnoresConversion` | pkg/plugin/datasource.go:320-323 | String keywords never consult the conversion, and their float slots stay 0. |
| `Fetch.FetchKeepsOrder` | pkg/plugin/datasource.go:270-317 | Rows ascending in time give ascending slot times. |
| `Pipeline.Assemble` | pkg/plugin/datasource.go:280-452 | After the lookups, the query panics exactly when the window is empty and the transform is 1–5. Otherwise it returns exactly one frame. Any error except the trailing stream error comes with the endpoint frame alone. |
| `Pipeline.Query` | pkg/plugin/datasource.go:171-455 | A query returns at most one frame. It panics on `sk[1]` exactly when its visible, non-empty text has no dot. Every panic comes from a decoded, visible query with a non-empty text. |
| `Pipeline.Collected` | pkg/plugin/datasource.go:146-152 | The queries never produce a setup failure. Without a panic, the first n queries give at most n responses. |
| `Pipeline.RunAssemble` | pkg/plugin/datasource.go:280-452 | Fetch, transform and assembly on arrays equal the specification `Assemble`. |
| `Pipeline.RunQuery` | pkg/plugin/datasource.go:171-455 | The imperative query equals the specification `Query`, including every early exit, error and panic. |
| `Pipeline.QueryData` | pkg/plugin/datasource.go:121-155 | A setup failure fails the batch. Otherwise the queries run in order and their responses are stored by ref id. |
| `Pipeline.PanicStopsBatch` | pkg/plugin/datasource.go:146-152 | After a query panics, no later query changes the batch outcome. |
| `Pipeline.CollectedWithoutPanic` | pkg/plugin/datasource.go:146-152 | The batch yields responses exactly when no query panics. |
| `Pipeline.CollectedKeys` | pkg/plugin/datasource.go:146-152 | The response map's keys are the queries' ref ids. |
| `Pipeline.CollectedLastWins` | pkg/plugin/datasource.go:146-152 | Each ref id maps to the response of the last query carrying it. |
| `Pipeline.HiddenQueryHasNoFrames` | pkg/plugin/datasource.go:183-186 | A hidden query returns no frames and no error. |
| `Pipeline.EmptyTextGivesEndpointFrame` | pkg/plugin/datasource.go:192-198 | An empty query text returns the endpoint frame and no error. |
| `Pipeline.TextWithoutDotPanics` | pkg/plugin/datasource.go:206-208 | A non-empty text without a dot panics on `sk[1]`. |
| `Pipeline.LookupFailuresGiveEndpointFrame` | pkg/plugin/datasource.go:219-266 | No metadata row or no count row gives the endpoint frame with no error. Any other lookup or count error gives the endpoint frame with that error. |
| `Pipeline.UnknownConversionGivesEndpointFrame` | pkg/plugin/datasource.go:352-356 | A scalar keyword with count ≥ 1 and an unknown conversion gets exactly the endpoint frame plus the conversion error, and no data frame, unless the first row fails to scan (the scan error comes first). |
| `Pipeline.UnknownTransformGivesEndpointFrame` | pkg/plugin/datasource.go:420-424 | An unknown transform gives the endpoint frame plus the transform error, for both kinds of keyword. |
| `Pipeline.EmptyWindowWithTransformPanics` | pkg/plugin/datasource.go:373 | count = 0 with transform 1–5 panics in `make(…, count-1)`. |
| `Pipeline.ErrorsComeWithoutData` | pkg/plugin/datasource.go:175-427 | Every error except the trailing stream error comes with no frame or only the endpoint frame. |
| `Pipeline.ScalarDataFrame` | pkg/plugin/datasource.go:436-452 | A scalar success gives one frame with `RefID = qm.RefId` and `Name = qm.QueryText`, then fields "" and "time". The value and time fields have equal length: count, or count−1 after a transform. |
| `Pipeline.StringDataFrame` | pkg/plugin/datasource.go:444-449 | A string keyword's frame carries the fetched strings (length count) while its times are transformed (count−1 after codes 1–5), so the two fields then differ in length. |
| `Pipeline.TrailingErrorNeedsShortResult` | pkg/plugin/datasource.go:428-433 | A data frame comes with an error exactly when the stream ended in an error and the loop asked for more rows than were delivered. |
| `Pipeline.DerivativeScenario` | pkg/plugin/datasource.go:280-452 | Scalar samples 1, 2, 4 one second apart, with the plain derivative, give values 1, 2 at the two later times. |

## Behaviour kept as written

The model keeps the following behaviour of the code exactly as it is:

- A non-empty query text without a dot panics when the second segment is indexed
  (`Pipeline.TextWithoutDotPanics`).
- A derivative or delta on an empty window panics in `make(…, count-1)`
  (`Pipeline.EmptyWindowWithTransformPanics`). A single-sample window yields an empty
  series.
- String keywords go through the transform too. Their times are shifted while their
  values are not (`Pipeline.StringDataFrame`).
- When the select statement itself fails, the response carries the error and no frame.
- Conversion code 4 adds 273.15 and code 5 subtracts it, whatever their names say.

## Left out

- JSON decoding of the query and of the settings: the model receives the decoded query, or
  the decoder's message. A settings or connection failure is the single `setup` input of
  `QueryData`.
- SQL: the statement texts, `pq.QuoteIdentifier` and the driver. The three statements
  are functions of the store, applied to the unquoted service name. `Scan` is a row's
  `asText`/`asFloat` (`None` where Scan refuses, e.g. an unparsable or NULL value).
- The count is a natural number. Scanning a count above the int32 range into `int32`
  would fail, and this is not modelled.
- Time conversion: window endpoints and row times are real Unix seconds. The
  `UnixNano()*1e-9` conversion, the `math.Modf`/`time.Unix` split and nanosecond
  truncation are not modelled.
- float64 rounding in the conversions and the derivative: values are reals. Only the
  IEEE results of a zero divisor (±Inf, NaN) are kept.
- Logging (`fl()`, the empty-`Format` warning) and the unused context argument.
- `CheckHealth`, `handleResourceKeywords`, `writeResult`, `NewDatasource`,
  `newDataSourceInstance` and `Dispose`: host plumbing and pass-through listing queries.
  They are not part of this model.
- What the plugin host does with a panic: the model ends the batch at the first
  panicking query.
- The React editor and the other TypeScript files: only the editor's composition of the
  query text (`QueryText.Compose`) is modelled.
