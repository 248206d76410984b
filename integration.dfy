/** The integration test's checks: the validators that throw on a malformed response body,
    and the bounded retry loop around each GET. The HTTP client is a parameter. */
module Integration {
  import opened Wrappers
  import opened Js
  import Sql

  // ---------------------------------------------------------------------------
  // Required fields
  // ---------------------------------------------------------------------------

  /** The loop `for (const field of fields) if (!(field in v)) throw …`: the first missing
      field is reported with `missing` before its name; `in` on a value that is not an
      object or array throws a TypeError. */
  function RequireFields(v: Value, fields: seq<string>, missing: string): Outcome<Thrown>
  {
    if fields == [] then Pass
    else
      match HasProperty(v, fields[0])
      case Failure(e) => Fail(e)
      case Success(present) =>
        if present then RequireFields(v, fields[1..], missing) else Fail(Error(missing + fields[0]))
  }

  method CheckFields(v: Value, fields: seq<string>, missing: string) returns (r: Outcome<Thrown>)
    ensures r == RequireFields(v, fields, missing)
  {
    var i := 0;
    while i < |fields|
      invariant 0 <= i <= |fields|
      invariant RequireFields(v, fields, missing) == RequireFields(v, fields[i..], missing)
    {
      assert fields[i..][1..] == fields[i + 1..];
      var has := HasProperty(v, fields[i]);
      match has {
        case Failure(e) => return Fail(e);
        case Success(present) =>
          if !present {
            return Fail(Error(missing + fields[i]));
          }
      }
      i := i + 1;
    }
    return Pass;
  }

  /** An object passes exactly when it has every field; otherwise the error names the first
      field it lacks. Any other value that is not an array throws a TypeError at the first
      field. */
  lemma {:induction false} RequireFieldsMeaning(v: Value, fields: seq<string>, missing: string)
    ensures v.Object? ==>
      (RequireFields(v, fields, missing) == Pass <==> forall f :: f in fields ==> f in v.props)
    ensures v.Object? && RequireFields(v, fields, missing) != Pass ==>
      exists i :: 0 <= i < |fields| && fields[i] !in v.props
        && (forall j :: 0 <= j < i ==> fields[j] in v.props)
        && RequireFields(v, fields, missing) == Fail(Error(missing + fields[i]))
    ensures !v.Object? && !v.Array? && fields != [] ==> RequireFields(v, fields, missing) == Fail(TypeError)
    decreases |fields|
  {
    if fields != [] {
      RequireFieldsMeaning(v, fields[1..], missing);
      assert forall f :: f in fields <==> f == fields[0] || f in fields[1..];
      if v.Object? && fields[0] in v.props && RequireFields(v, fields, missing) != Pass {
        var i :| 0 <= i < |fields[1..]| && fields[1..][i] !in v.props
          && (forall j :: 0 <= j < i ==> fields[1..][j] in v.props)
          && RequireFields(v, fields[1..], missing) == Fail(Error(missing + fields[1..][i]));
        assert fields[i + 1] !in v.props;
        assert forall j :: 0 <= j < i + 1 ==> fields[j] in v.props by {
          forall j | 0 <= j < i + 1
            ensures fields[j] in v.props
          {
            if j > 0 {
              assert fields[j] == fields[1..][j - 1];
            }
          }
        }
      }
    }
  }

  // ---------------------------------------------------------------------------
  // The validators
  // ---------------------------------------------------------------------------

  const TELEMETRY_FIELDS: seq<string> := ["id", "timestamp", "temperature", "battery", "altitude", "signal_strength"]
  const STATUS_FIELDS: seq<string> := ["latest_telemetry", "anomaly_count", "status", "last_update"]

  /** `validateTelemetryData`: not null or undefined, an array, and the first record (only
      it) has the six required fields; an empty array passes. */
  function TelemetryDataCheck(data: Value): Outcome<Thrown>
  {
    if data.Null? || data.Undefined? then Fail(Error("Telemetry API returned null or undefined"))
    else if !data.Array? then Fail(Error("Telemetry API did not return an array"))
    else if |data.items| > 0 then RequireFields(data.items[0], TELEMETRY_FIELDS, "Missing required field: ")
    else Pass
  }

  method ValidateTelemetryData(data: Value) returns (r: Outcome<Thrown>)
    ensures r == TelemetryDataCheck(data)
  {
    if data.Null? || data.Undefined? {
      return Fail(Error("Telemetry API returned null or undefined"));
    }
    if !data.Array? {
      return Fail(Error("Telemetry API did not return an array"));
    }
    if |data.items| > 0 {
      var firstRecord := data.items[0];
      r := CheckFields(firstRecord, TELEMETRY_FIELDS, "Missing required field: ");
      if r != Pass {
        return r;
      }
    }
    return Pass;
  }

  /** An array passes exactly when it is empty or its first record has the six fields;
      later records are never looked at. */
  lemma TelemetryDataMeaning(data: Value)
    ensures data.Array? && (data.items == [] || data.items[0].Object?) ==>
      (TelemetryDataCheck(data) == Pass <==>
        data.items == [] || forall f :: f in TELEMETRY_FIELDS ==> f in data.items[0].props)
    ensures data.Array? && |data.items| > 0 ==>
      forall rest :: TelemetryDataCheck(Array([data.items[0]] + rest)) == TelemetryDataCheck(data)
    ensures !data.Array? ==> TelemetryDataCheck(data).Fail?
  {
    if data.Array? && |data.items| > 0 {
      RequireFieldsMeaning(data.items[0], TELEMETRY_FIELDS, "Missing required field: ");
    }
  }

  /** `validateCurrentStatus`: the four required fields. */
  function CurrentStatusCheck(data: Value): Outcome<Thrown>
  {
    RequireFields(data, STATUS_FIELDS, "Missing required field in current status: ")
  }

  method ValidateCurrentStatus(data: Value) returns (r: Outcome<Thrown>)
    ensures r == CurrentStatusCheck(data)
  {
    r := CheckFields(data, STATUS_FIELDS, "Missing required field in current status: ");
  }

  /** `validateAnomalies`: any array passes, empty or not, without its elements being
      looked at; anything else fails. */
  function AnomaliesCheck(data: Value): (r: Outcome<Thrown>)
    ensures r == Pass <==> data.Array?
    ensures r != Pass ==> r == Fail(Error("Invalid anomalies data format"))
  {
    if !Truthy(data) || !data.Array? then Fail(Error("Invalid anomalies data format")) else Pass
  }

  method ValidateAnomalies(data: Value) returns (r: Outcome<Thrown>)
    ensures r == AnomaliesCheck(data)
  {
    if !Truthy(data) || !data.Array? {
      return Fail(Error("Invalid anomalies data format"));
    }
    return Pass;
  }

  /** The name each aggregation validator uses in its messages, and the prefix of the
      metric fields it requires. */
  function KindName(kind: Sql.AggregationKind): string
  {
    match kind
    case Average => "aggregations"
    case Minimum => "min aggregations"
    case Maximum => "max aggregations"
  }

  function AggregationFields(kind: Sql.AggregationKind): (fields: seq<string>)
    ensures |fields| == 5 && fields[0] == "bucket"
  {
    match kind
    case Average => ["bucket", "avg_temperature", "avg_battery", "avg_altitude", "avg_signal_strength"]
    case Minimum => ["bucket", "min_temperature", "min_battery", "min_altitude", "min_signal_strength"]
    case Maximum => ["bucket", "max_temperature", "max_battery", "max_altitude", "max_signal_strength"]
  }

  /** `validateAggregations`, `validateMinAggregations`, `validateMaxAggregations`. */
  function AggregationsCheck(kind: Sql.AggregationKind, data: Value): Outcome<Thrown>
  {
    if !Truthy(data) || !data.Array? then Fail(Error("Invalid " + KindName(kind) + " data format"))
    else if |data.items| > 0 then RequireFields(data.items[0], AggregationFields(kind), "Missing required field in " + KindName(kind) + ": ")
    else Pass
  }

  method ValidateAggregations(kind: Sql.AggregationKind, data: Value) returns (r: Outcome<Thrown>)
    ensures r == AggregationsCheck(kind, data)
  {
    if !Truthy(data) || !data.Array? {
      return Fail(Error("Invalid " + KindName(kind) + " data format"));
    }
    if |data.items| > 0 {
      var firstRecord := data.items[0];
      r := CheckFields(firstRecord, AggregationFields(kind), "Missing required field in " + KindName(kind) + ": ");
      if r != Pass {
        return r;
      }
    }
    return Pass;
  }

  /** An empty array passes every aggregation validator, and `null` fails each. */
  lemma AggregationsEdgeCases(kind: Sql.AggregationKind)
    ensures AggregationsCheck(kind, Array([])) == Pass
    ensures AggregationsCheck(kind, Null) == Fail(Error("Invalid " + KindName(kind) + " data format"))
  {
  }

  // ---------------------------------------------------------------------------
  // The retry loop
  // ---------------------------------------------------------------------------

  const API_BASE_URL: string := "http://localhost:8080"
  const RETRIES: nat := 3
  const DELAY_MS: nat := 2000

  /** The outcome of `testEndpoint` from attempt `i` on, and the milliseconds slept from
      then on; `get(url, i)` is the outcome of the i-th GET (its 10-second timeout
      included). After the last attempt the function would return `undefined`. */
  function Attempts(get: (string, nat) -> Result<Value, Thrown>, url: string, i: nat): (Result<Value, Thrown>, nat)
    decreases RETRIES - i
  {
    if i >= RETRIES then (Success(Undefined), 0)
    else
      match get(url, i)
      case Success(data) => (Success(data), 0)
      case Failure(e) =>
        if i < RETRIES - 1 then
          var (r, slept) := Attempts(get, url, i + 1);
          (r, slept + DELAY_MS)
        else (Failure(e), 0)
  }

  /** `testEndpoint`: up to three GETs of the API base URL plus the endpoint, sleeping
      between attempts; returns the first response's data or rethrows the last error.
      `sleptMs` is the total time slept. */
  method TestEndpoint(endpoint: string, get: (string, nat) -> Result<Value, Thrown>) returns (r: Result<Value, Thrown>, sleptMs: nat)
    ensures (r, sleptMs) == Attempts(get, API_BASE_URL + endpoint, 0)
  {
    var url := API_BASE_URL + endpoint;
    sleptMs := 0;
    var i := 0;
    while i < RETRIES
      invariant 0 <= i <= RETRIES
      invariant sleptMs == i * DELAY_MS
      invariant Attempts(get, url, 0) == (Attempts(get, url, i).0, Attempts(get, url, i).1 + sleptMs)
    {
      var response := get(url, i);
      match response {
        case Success(data) => return Success(data), sleptMs;
        case Failure(error) =>
          if i < RETRIES - 1 {
            sleptMs := sleptMs + DELAY_MS;
          } else {
            return Failure(error), sleptMs;
          }
      }
      i := i + 1;
    }
    return Success(Undefined), sleptMs;
  }

  /** At most three attempts: the result is the first successful response, after one
      2-second sleep per earlier failure; when all three fail, the third error is rethrown
      after two sleeps, none following the last attempt. */
  lemma RetryFacts(get: (string, nat) -> Result<Value, Thrown>, url: string)
    ensures var (r, slept) := Attempts(get, url, 0);
      && (r.Success? <==> exists k :: 0 <= k < RETRIES && get(url, k).Success?)
      && (forall k :: 0 <= k < RETRIES && get(url, k).Success? && (forall j :: 0 <= j < k ==> get(url, j).Failure?) ==>
            r == get(url, k) && slept == k * DELAY_MS)
      && (r.Failure? ==> r == get(url, 2) && slept == 2 * DELAY_MS)
  {
    assert Attempts(get, url, 3) == (Success(Undefined), 0);
  }
}
