/** The API's responses checked against the integration test's validators. */
module ApiContract {
  import opened Wrappers
  import Js
  import opened Records
  import opened Sql
  import opened Api
  import opened Integration

  /** A serialized telemetry row carries every field the telemetry validator requires. */
  lemma TelemetryRecordFields(t: Telemetry)
    ensures TelemetryJson(t).Object?
    ensures forall f :: f in TELEMETRY_FIELDS ==> f in TelemetryJson(t).props
  {
  }

  /** Every successful `/api/v1/telemetry` response passes `validateTelemetryData`, whether
      or not any row was found. */
  lemma TelemetryResponsePasses(params: map<string, string>, db: Query -> Result<Rows<Telemetry>, string>)
    ensures TelemetryResponse(params, db).status == 200 ==> TelemetryDataCheck(TelemetryResponse(params, db).body) == Pass
  {
    var r := TelemetryResponse(params, db);
    if r.status == 200 && |r.body.items| > 0 {
      var t := Scanned(db(TelemetryQuery(params)).value.scans)[0];
      TelemetryRecordFields(t);
      RequireFieldsMeaning(r.body.items[0], TELEMETRY_FIELDS, "Missing required field: ");
    }
  }

  /** Every successful `/api/v1/telemetry/current` response passes `validateCurrentStatus`. */
  lemma CurrentStatusPasses(latest: Telemetry, count: int, status: string, now: string)
    ensures CurrentStatusCheck(CurrentStatusJson(CurrentStatus(latest, count, status, now))) == Pass
  {
    RequireFieldsMeaning(CurrentStatusJson(CurrentStatus(latest, count, status, now)), STATUS_FIELDS, "Missing required field in current status: ");
  }

  /** As written, an anomaly query that yields no scanned row (an empty table, or only rows
      that failed to scan) is served as `null`, which `validateAnomalies` rejects. */
  lemma EmptyAnomaliesRejected(params: map<string, string>, db: Query -> Result<Rows<Anomaly>, string>)
    requires db(AnomaliesQuery(params)).Success?
    requires Scanned(db(AnomaliesQuery(params)).value.scans) == []
    ensures AnomaliesResponseAsWritten(params, db) == Response(200, Js.Null)
    ensures AnomaliesCheck(AnomaliesResponseAsWritten(params, db).body) == Fail(Js.Error("Invalid anomalies data format"))
  {
  }

  /** With the slice made empty, every successful anomaly response passes. */
  lemma AnomaliesResponsePasses(params: map<string, string>, db: Query -> Result<Rows<Anomaly>, string>)
    ensures AnomaliesResponse(params, db).status == 200 ==> AnomaliesCheck(AnomaliesResponse(params, db).body) == Pass
  {
  }

  /** As written, an aggregation query that yields no scanned row is served as `null`,
      which the matching aggregation validator rejects. */
  lemma EmptyAggregationsRejected(kind: AggregationKind, params: map<string, string>, db: Query -> Result<Rows<BucketColumns>, string>)
    requires db(AggregationsQuery(kind, params)).Success?
    requires Scanned(AggregationScans(kind, db(AggregationsQuery(kind, params)).value.scans)) == []
    ensures AggregationsResponseAsWritten(kind, params, db) == Response(200, Js.Null)
    ensures AggregationsCheck(kind, AggregationsResponseAsWritten(kind, params, db).body) == Fail(Js.Error("Invalid " + KindName(kind) + " data format"))
  {
  }

  /** A serialized aggregation row of an endpoint's kind has the fields that endpoint's
      validator requires. */
  lemma AggregationRecordFields(kind: AggregationKind, row: AggregationRow)
    requires RowOfKind(kind, row)
    ensures AggregationJson(row).Object?
    ensures forall f :: f in AggregationFields(kind) ==> f in AggregationJson(row).props
  {
    var fields := AggregationFields(kind);
    var props := AggregationJson(row).props;
    assert forall f :: f in fields ==> f == fields[0] || f == fields[1] || f == fields[2] || f == fields[3] || f == fields[4];
  }

  /** An array of rows of an endpoint's own shape passes that endpoint's validator. */
  lemma RowsOfKindPass(kind: AggregationKind, rows: seq<AggregationRow>)
    requires forall row :: row in rows ==> RowOfKind(kind, row)
    ensures AggregationsCheck(kind, ArrayJson(rows, AggregationJson)) == Pass
  {
    if |rows| > 0 {
      var v := ArrayJson(rows, AggregationJson);
      AggregationRecordFields(kind, rows[0]);
      RequireFieldsMeaning(v.items[0], AggregationFields(kind), "Missing required field in " + KindName(kind) + ": ");
    }
  }

  /** With the slice made empty, every successful aggregation response passes its
      endpoint's validator. */
  lemma AggregationsResponsePasses(kind: AggregationKind, params: map<string, string>, db: Query -> Result<Rows<BucketColumns>, string>)
    ensures AggregationsResponse(kind, params, db).status == 200 ==>
      AggregationsCheck(kind, AggregationsResponse(kind, params, db).body) == Pass
  {
    match db(AggregationsQuery(kind, params)) {
      case Failure(_) =>
      case Success(rows) =>
        AggregationRowsOfKind(kind, rows.scans);
        RowsOfKindPass(kind, Scanned(AggregationScans(kind, rows.scans)));
    }
  }
}
