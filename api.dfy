/** The telemetry API's request handlers, with the database abstracted as a parameter:
    each query's outcome (an error, or the rows with the outcome of scanning each one) is
    whatever `db` returns for the query text and arguments the handler built. */
module Api {
  import opened Wrappers
  import Js
  import opened Text
  import opened Sql
  import opened Records

  /** Fiber's `c.Query(key, default)`: the default when the parameter is absent or empty. */
  function QueryParam(params: map<string, string>, key: string, default: string): (v: string)
    ensures key in params && params[key] != "" ==> v == params[key]
    ensures !(key in params && params[key] != "") ==> v == default
  {
    if key in params && params[key] != "" then params[key] else default
  }

  /** A status code and a JSON body. */
  datatype Response = Response(status: int, body: Js.Value)

  /** The body of every 500 response: what failed, and the driver's error text. */
  function ErrorBody(error: string, details: string): (v: Js.Value)
    ensures v.Object? && "error" in v.props && "details" in v.props
  {
    Js.Object(map["error" := Js.Str(error), "details" := Js.Str(details)])
  }

  /** What `db.Query` yields: the outcome of `rows.Scan` for each row `rows.Next()` visits,
      in query order, and the error `rows.Err()` reports afterwards, if any. */
  datatype Rows<T> = Rows(scans: seq<Result<T, string>>, iterError: Option<string>)

  // ---------------------------------------------------------------------------
  // Scanning rows
  // ---------------------------------------------------------------------------

  /** The rows that scanned successfully, in query order. */
  function Scanned<T>(scans: seq<Result<T, string>>): seq<T>
  {
    if scans == [] then []
    else
      var last := scans[|scans| - 1];
      Scanned(scans[..|scans| - 1]) + (if last.Success? then [last.value] else [])
  }

  /** The `for rows.Next()` loops: a row that fails to scan is logged and skipped. */
  method ScanRows<T>(scans: seq<Result<T, string>>) returns (items: seq<T>)
    ensures items == Scanned(scans)
  {
    items := [];
    var i := 0;
    while i < |scans|
      invariant 0 <= i <= |scans|
      invariant items == Scanned(scans[..i])
    {
      assert scans[..i + 1][..i] == scans[..i];
      match scans[i] {
        case Failure(_) =>
        case Success(row) => items := items + [row];
      }
      i := i + 1;
    }
    assert scans[..|scans|] == scans;
  }

  /** Scanning distributes over concatenation: the result keeps query order. */
  lemma {:induction false} ScannedAppend<T>(a: seq<Result<T, string>>, b: seq<Result<T, string>>)
    ensures Scanned(a + b) == Scanned(a) + Scanned(b)
    decreases |b|
  {
    if b == [] {
      assert a + b == a;
    } else {
      assert (a + b)[..|a + b| - 1] == a + b[..|b| - 1];
      ScannedAppend(a, b[..|b| - 1]);
    }
  }

  /** A failed scan contributes nothing and a successful one its row; so when every row
      scans, the result is every row. */
  lemma {:induction false} ScannedRows<T>(scans: seq<Result<T, string>>)
    ensures |Scanned(scans)| <= |scans|
    ensures (forall i :: 0 <= i < |scans| ==> scans[i].Success?) ==>
      Scanned(scans) == seq(|scans|, i requires 0 <= i < |scans| && scans[i].Success? => scans[i].value)
    ensures forall x :: x in Scanned(scans) <==> Success(x) in scans
    decreases |scans|
  {
    if scans != [] {
      var prefix := scans[..|scans| - 1];
      ScannedRows(prefix);
      assert scans == prefix + [scans[|scans| - 1]];
      assert forall r :: r in scans <==> r in prefix || r == scans[|scans| - 1];
    }
  }

  /** `c.JSON` of a slice built with `make(..., 0)`: always an array. */
  function ArrayJson<T>(items: seq<T>, encode: T -> Js.Value): (v: Js.Value)
    ensures v.Array? && |v.items| == |items|
    ensures forall i :: 0 <= i < |items| ==> v.items[i] == encode(items[i])
  {
    Js.Array(seq(|items|, i requires 0 <= i < |items| => encode(items[i])))
  }

  /** `c.JSON` of a slice declared `var xs []T` and grown by `append`: a slice nothing was
      appended to is nil, which encodes as `null`. */
  function NilSliceJson<T>(items: seq<T>, encode: T -> Js.Value): (v: Js.Value)
    ensures items == [] <==> v == Js.Null
    ensures items != [] ==> v == ArrayJson(items, encode)
  {
    if items == [] then Js.Null else ArrayJson(items, encode)
  }

  // ---------------------------------------------------------------------------
  // /api/v1/telemetry
  // ---------------------------------------------------------------------------

  function TelemetryQuery(params: map<string, string>): Query
  {
    ListQuery(TelemetryTable, QueryParam(params, "start_time", ""), QueryParam(params, "end_time", ""), QueryParam(params, "limit", "100"))
  }

  function TelemetryResponse(params: map<string, string>, db: Query -> Result<Rows<Telemetry>, string>): Response
  {
    match db(TelemetryQuery(params))
    case Failure(e) => Response(500, ErrorBody("Failed to query telemetry data", e))
    case Success(rows) =>
      if rows.iterError.Some? then Response(500, ErrorBody("Failed to iterate telemetry data", rows.iterError.value))
      else Response(200, ArrayJson(Scanned(rows.scans), TelemetryJson))
  }

  /** `getTelemetry`. */
  method GetTelemetry(params: map<string, string>, db: Query -> Result<Rows<Telemetry>, string>) returns (resp: Response)
    ensures resp == TelemetryResponse(params, db)
  {
    var startTime := QueryParam(params, "start_time", "");
    var endTime := QueryParam(params, "end_time", "");
    var limit := QueryParam(params, "limit", "100");
    var query := BuildListQuery(TelemetryTable, startTime, endTime, limit);
    var result := db(query);
    match result {
      case Failure(e) => return Response(500, ErrorBody("Failed to query telemetry data", e));
      case Success(rows) =>
        var telemetry := ScanRows(rows.scans);
        if rows.iterError.Some? {
          return Response(500, ErrorBody("Failed to iterate telemetry data", rows.iterError.value));
        }
        return Response(200, ArrayJson(telemetry, TelemetryJson));
    }
  }

  /** The telemetry query always ends with a limit: the `limit` parameter read by Atoi, or
      100 when it is absent or empty; a non-numeric limit binds 0. */
  lemma TelemetryLimit(params: map<string, string>)
    ensures var q := TelemetryQuery(params);
      && |q.args| >= 1
      && q.args[|q.args| - 1] == Integer(Atoi(QueryParam(params, "limit", "100")))
      && (!("limit" in params && params["limit"] != "") ==> q.args[|q.args| - 1] == Integer(100))
      && ("limit" in params && params["limit"] == "abc" ==> q.args[|q.args| - 1] == Integer(0))
  {
    assert Text.Decimal(100) == "100";
    AtoiRoundTrip(100);
    AtoiRejects("abc", 0);
  }

  /** A successful telemetry response is an array even when no row scanned, holding the
      scanned rows in query order; every failure is a 500 with an error body. */
  lemma TelemetryResponseShape(params: map<string, string>, db: Query -> Result<Rows<Telemetry>, string>)
    ensures var r := TelemetryResponse(params, db);
      && (r.status == 200 || r.status == 500)
      && (r.status == 200 <==> db(TelemetryQuery(params)).Success? && db(TelemetryQuery(params)).value.iterError.None?)
      && (r.status == 200 ==> r.body.Array? && |r.body.items| == |Scanned(db(TelemetryQuery(params)).value.scans)|)
      && (r.status == 500 ==> r.body.Object? && "error" in r.body.props)
  {
  }

  // ---------------------------------------------------------------------------
  // /api/v1/telemetry/anomalies
  // ---------------------------------------------------------------------------

  function AnomaliesQuery(params: map<string, string>): Query
  {
    ListQuery(AnomalyHistoryTable, QueryParam(params, "start_time", ""), QueryParam(params, "end_time", ""), QueryParam(params, "limit", "100"))
  }

  /** The response as written: the nil slice makes an empty result `null`, and `rows.Err()`
      is not consulted. */
  function AnomaliesResponseAsWritten(params: map<string, string>, db: Query -> Result<Rows<Anomaly>, string>): Response
  {
    match db(AnomaliesQuery(params))
    case Failure(e) => Response(500, ErrorBody("Failed to query anomaly data", e))
    case Success(rows) => Response(200, NilSliceJson(Scanned(rows.scans), AnomalyJson))
  }

  /** `getAnomalies`. */
  method GetAnomaliesAsWritten(params: map<string, string>, db: Query -> Result<Rows<Anomaly>, string>) returns (resp: Response)
    ensures resp == AnomaliesResponseAsWritten(params, db)
  {
    var startTime := QueryParam(params, "start_time", "");
    var endTime := QueryParam(params, "end_time", "");
    var limit := QueryParam(params, "limit", "100");
    var query := BuildListQuery(AnomalyHistoryTable, startTime, endTime, limit);
    var result := db(query);
    match result {
      case Failure(e) => return Response(500, ErrorBody("Failed to query anomaly data", e));
      case Success(rows) =>
        var anomalies := ScanRows(rows.scans);
        return Response(200, NilSliceJson(anomalies, AnomalyJson));
    }
  }

  /** The corrected response: the slice is made empty, so no rows give `[]`. */
  function AnomaliesResponse(params: map<string, string>, db: Query -> Result<Rows<Anomaly>, string>): Response
  {
    match db(AnomaliesQuery(params))
    case Failure(e) => Response(500, ErrorBody("Failed to query anomaly data", e))
    case Success(rows) => Response(200, ArrayJson(Scanned(rows.scans), AnomalyJson))
  }

  /** `getAnomalies` with `anomalies := make([]Anomaly, 0)`. */
  method GetAnomalies(params: map<string, string>, db: Query -> Result<Rows<Anomaly>, string>) returns (resp: Response)
    ensures resp == AnomaliesResponse(params, db)
  {
    var startTime := QueryParam(params, "start_time", "");
    var endTime := QueryParam(params, "end_time", "");
    var limit := QueryParam(params, "limit", "100");
    var query := BuildListQuery(AnomalyHistoryTable, startTime, endTime, limit);
    var result := db(query);
    match result {
      case Failure(e) => return Response(500, ErrorBody("Failed to query anomaly data", e));
      case Success(rows) =>
        var anomalies := ScanRows(rows.scans);
        return Response(200, ArrayJson(anomalies, AnomalyJson));
    }
  }

  // ---------------------------------------------------------------------------
  // /api/v1/telemetry/aggregations{,/min,/max}
  // ---------------------------------------------------------------------------

  function AggregationsQuery(kind: AggregationKind, params: map<string, string>): Query
  {
    AggregationQuery(kind, QueryParam(params, "start_time", ""), QueryParam(params, "end_time", ""), QueryParam(params, "bucket_size", "1 hour"))
  }

  function AggregationFailure(kind: AggregationKind): string
  {
    match kind
    case Average => "Failed to query aggregation data"
    case Minimum => "Failed to query min aggregation data"
    case Maximum => "Failed to query max aggregation data"
  }

  /** The rows each endpoint's SELECT produces: the full avg/min/max row, or the
      minimum-only or maximum-only row. */
  predicate RowOfKind(kind: AggregationKind, row: AggregationRow)
  {
    match kind
    case Average => row.Summary?
    case Minimum => row.ExtremeRow? && row.extreme == Lowest
    case Maximum => row.ExtremeRow? && row.extreme == Highest
  }

  /** One result row of an aggregation query as the driver holds it: the bucket, the
      subsystem, the metric columns in SELECT order and the two counts. */
  datatype BucketColumns = BucketColumns(bucket: string, subsystemId: int, metrics: seq<real>, packetCount: int, anomalyCount: int)

  /** How many metric columns each handler's struct scans: avg, min and max of four
      metrics, or one value of each. */
  function MetricColumns(kind: AggregationKind): nat
  {
    if kind == Average then 12 else 4
  }

  /** `rows.Scan` into the handler's own struct (`AggregationResult`,
      `MinAggregationResult` or `MaxAggregationResult`): the struct fixes the row's shape,
      and a row with another number of columns is refused, as database/sql does. */
  function ScanAggregation(kind: AggregationKind, cols: BucketColumns): (r: Result<AggregationRow, string>)
    ensures r.Success? <==> |cols.metrics| == MetricColumns(kind)
    ensures r.Success? ==> RowOfKind(kind, r.value)
    ensures r.Success? ==>
      && r.value.bucket == cols.bucket && r.value.subsystemId == cols.subsystemId
      && r.value.packetCount == cols.packetCount && r.value.anomalyCount == cols.anomalyCount
  {
    var m := cols.metrics;
    if |m| != MetricColumns(kind) then
      Failure("sql: expected " + Decimal(4 + |m|) + " destination arguments in Scan, not " + Decimal(4 + MetricColumns(kind)))
    else
      match kind
      case Average =>
        Success(Summary(cols.bucket, cols.subsystemId,
          Stats(m[0], m[1], m[2]), Stats(m[3], m[4], m[5]), Stats(m[6], m[7], m[8]), Stats(m[9], m[10], m[11]),
          cols.packetCount, cols.anomalyCount))
      case Minimum =>
        Success(ExtremeRow(Lowest, cols.bucket, cols.subsystemId, m[0], m[1], m[2], m[3], cols.packetCount, cols.anomalyCount))
      case Maximum =>
        Success(ExtremeRow(Highest, cols.bucket, cols.subsystemId, m[0], m[1], m[2], m[3], cols.packetCount, cols.anomalyCount))
  }

  /** The outcome of scanning each row the driver visited: a driver-side failure stays a
      failure, a fetched row is scanned into the handler's struct. */
  function AggregationScans(kind: AggregationKind, scans: seq<Result<BucketColumns, string>>): (r: seq<Result<AggregationRow, string>>)
    ensures |r| == |scans|
    ensures forall i :: 0 <= i < |scans| ==> (r[i].Success? <==> scans[i].Success? && ScanAggregation(kind, scans[i].value).Success?)
  {
    seq(|scans|, i requires 0 <= i < |scans| =>
      match scans[i]
      case Failure(e) => Failure(e)
      case Success(cols) => ScanAggregation(kind, cols))
  }

  /** Every row a handler serves has the shape of its own endpoint. */
  lemma AggregationRowsOfKind(kind: AggregationKind, scans: seq<Result<BucketColumns, string>>)
    ensures forall row :: row in Scanned(AggregationScans(kind, scans)) ==> RowOfKind(kind, row)
  {
    var r := AggregationScans(kind, scans);
    ScannedRows(r);
    forall row | row in Scanned(r)
      ensures RowOfKind(kind, row)
    {
      var i :| 0 <= i < |r| && r[i] == Success(row);
      match scans[i] {
        case Success(cols) => assert r[i] == ScanAggregation(kind, cols);
      }
    }
  }

  function AggregationsResponseAsWritten(kind: AggregationKind, params: map<string, string>, db: Query -> Result<Rows<BucketColumns>, string>): Response
  {
    match db(AggregationsQuery(kind, params))
    case Failure(e) => Response(500, ErrorBody(AggregationFailure(kind), e))
    case Success(rows) => Response(200, NilSliceJson(Scanned(AggregationScans(kind, rows.scans)), AggregationJson))
  }

  /** `getAggregations`, `getMinAggregations` and `getMaxAggregations`. */
  method GetAggregationsAsWritten(kind: AggregationKind, params: map<string, string>, db: Query -> Result<Rows<BucketColumns>, string>)
    returns (resp: Response)
    ensures resp == AggregationsResponseAsWritten(kind, params, db)
  {
    var startTime := QueryParam(params, "start_time", "");
    var endTime := QueryParam(params, "end_time", "");
    var bucketSize := QueryParam(params, "bucket_size", "1 hour");
    var query := BuildAggregationQuery(kind, startTime, endTime, bucketSize);
    var result := db(query);
    match result {
      case Failure(e) => return Response(500, ErrorBody(AggregationFailure(kind), e));
      case Success(rows) =>
        var aggregations := ScanRows(AggregationScans(kind, rows.scans));
        return Response(200, NilSliceJson(aggregations, AggregationJson));
    }
  }

  function AggregationsResponse(kind: AggregationKind, params: map<string, string>, db: Query -> Result<Rows<BucketColumns>, string>): Response
  {
    match db(AggregationsQuery(kind, params))
    case Failure(e) => Response(500, ErrorBody(AggregationFailure(kind), e))
    case Success(rows) => Response(200, ArrayJson(Scanned(AggregationScans(kind, rows.scans)), AggregationJson))
  }

  /** The three aggregation handlers with the result slice made empty. */
  method GetAggregations(kind: AggregationKind, params: map<string, string>, db: Query -> Result<Rows<BucketColumns>, string>)
    returns (resp: Response)
    ensures resp == AggregationsResponse(kind, params, db)
  {
    var startTime := QueryParam(params, "start_time", "");
    var endTime := QueryParam(params, "end_time", "");
    var bucketSize := QueryParam(params, "bucket_size", "1 hour");
    var query := BuildAggregationQuery(kind, startTime, endTime, bucketSize);
    var result := db(query);
    match result {
      case Failure(e) => return Response(500, ErrorBody(AggregationFailure(kind), e));
      case Success(rows) =>
        var aggregations := ScanRows(AggregationScans(kind, rows.scans));
        return Response(200, ArrayJson(aggregations, AggregationJson));
    }
  }

  /** The bucket width is the first argument: `bucket_size`, or "1 hour" by default. */
  lemma AggregationBucketDefault(kind: AggregationKind, params: map<string, string>)
    ensures var q := AggregationsQuery(kind, params);
      && q.args[0] == Str(QueryParam(params, "bucket_size", "1 hour"))
      && (!("bucket_size" in params && params["bucket_size"] != "") ==> q.args[0] == Str("1 hour"))
  {
  }

  // ---------------------------------------------------------------------------
  // /api/v1/telemetry/current
  // ---------------------------------------------------------------------------

  /** The status rule: the latest sample's flag first, then the 24-hour anomaly count. */
  function DeriveStatus(latestIsAnomaly: bool, anomalyCount: int): string
  {
    if latestIsAnomaly then "ANOMALY" else if anomalyCount > 0 then "WARNING" else "NORMAL"
  }

  lemma StatusRule(latestIsAnomaly: bool, anomalyCount: int)
    ensures DeriveStatus(latestIsAnomaly, anomalyCount) == "ANOMALY" <==> latestIsAnomaly
    ensures DeriveStatus(latestIsAnomaly, anomalyCount) == "WARNING" <==> !latestIsAnomaly && anomalyCount > 0
    ensures DeriveStatus(latestIsAnomaly, anomalyCount) == "NORMAL" <==> !latestIsAnomaly && anomalyCount <= 0
  {
  }

  /** `getCurrentStatus`: `latest` is the outcome of the latest-row query, `count` that of
      the 24-hour anomaly count, `now` the time of the call. */
  method GetCurrentStatus(latest: Result<Telemetry, string>, count: Result<int, string>, now: string) returns (resp: Response)
    ensures latest.Failure? ==> resp == Response(500, ErrorBody("Failed to get current telemetry", latest.error))
    ensures latest.Success? ==>
      var anomalyCount := if count.Success? then count.value else 0;
      resp == Response(200, CurrentStatusJson(CurrentStatus(latest.value, anomalyCount, DeriveStatus(latest.value.isAnomaly, anomalyCount), now)))
  {
    var row: Telemetry;
    match latest {
      case Failure(e) => return Response(500, ErrorBody("Failed to get current telemetry", e));
      case Success(t) => row := t;
    }
    var anomalyCount: int;
    match count {
      case Failure(_) => anomalyCount := 0;
      case Success(n) => anomalyCount := n;
    }
    var status := "NORMAL";
    if row.isAnomaly {
      status := "ANOMALY";
    } else if anomalyCount > 0 {
      status := "WARNING";
    }
    resp := Response(200, CurrentStatusJson(CurrentStatus(row, anomalyCount, status, now)));
  }

  // ---------------------------------------------------------------------------
  // /api/v1/telemetry/anomalies/count
  // ---------------------------------------------------------------------------

  function CountQuery(params: map<string, string>): Query
  {
    AnomalyCountQuery(QueryParam(params, "start_time", ""), QueryParam(params, "end_time", ""))
  }

  /** `getAnomalyCount`: `{"count": n}`, or a 500 when the count query fails. */
  method GetAnomalyCount(params: map<string, string>, db: Query -> Result<int, string>) returns (resp: Response)
    ensures db(CountQuery(params)).Failure? ==> resp == Response(500, ErrorBody("Failed to get anomaly count", db(CountQuery(params)).error))
    ensures db(CountQuery(params)).Success? ==> resp == Response(200, Js.Object(map["count" := Num(db(CountQuery(params)).value)]))
  {
    var startTime := QueryParam(params, "start_time", "");
    var endTime := QueryParam(params, "end_time", "");
    var query := BuildAnomalyCountQuery(startTime, endTime);
    var result := db(query);
    match result {
      case Failure(e) => return Response(500, ErrorBody("Failed to get anomaly count", e));
      case Success(count) => return Response(200, Js.Object(map["count" := Num(count)]));
    }
  }
}
