/** The records the telemetry API serves and the dashboard consumes, and their JSON
    encodings under the API's `json` struct tags. Times are the RFC 3339 strings that
    appear on the wire; float32 and float64 measurements are `real`. */
module Records {
  import opened Wrappers
  import Js
  import Text

  /** One row of the `telemetry` table. */
  datatype Telemetry = Telemetry(
    id: int,
    timestamp: string,
    packetId: int,
    packetSeqCtrl: int,
    subsystemId: int,
    temperature: real,
    battery: real,
    altitude: real,
    signalStrength: real,
    isAnomaly: bool,
    anomalyType: Option<string>,
    createdAt: string)

  /** One row of the `anomaly_history` table. */
  datatype Anomaly = Anomaly(
    id: int,
    telemetryId: int,
    timestamp: string,
    anomalyType: string,
    parameterName: string,
    parameterValue: real,
    thresholdValue: real,
    severity: string,
    acknowledged: bool,
    acknowledgedAt: Option<string>,
    createdAt: string)

  /** The average, minimum and maximum of one metric over a time bucket. */
  datatype Stats = Stats(avg: real, min: real, max: real)

  /** Which extreme a one-value-per-metric aggregation row holds. */
  datatype Extreme = Lowest | Highest

  /** One time bucket of aggregated telemetry: the full avg/min/max row of the
      `/aggregations` endpoint, or the min-only / max-only rows of `/aggregations/min`
      and `/aggregations/max`. */
  datatype AggregationRow =
    | Summary(
        bucket: string,
        subsystemId: int,
        temperatureStats: Stats,
        batteryStats: Stats,
        altitudeStats: Stats,
        signalStrengthStats: Stats,
        packetCount: int,
        anomalyCount: int)
    | ExtremeRow(
        extreme: Extreme,
        bucket: string,
        subsystemId: int,
        temperature: real,
        battery: real,
        altitude: real,
        signalStrength: real,
        packetCount: int,
        anomalyCount: int)

  /** The payload of `/api/v1/telemetry/current`. */
  datatype CurrentStatus = CurrentStatus(
    latestTelemetry: Telemetry,
    anomalyCount: int,
    status: string,
    lastUpdate: string)

  function Num(i: int): Js.Value { Js.Number(i as real) }

  function OptStr(o: Option<string>): Js.Value
  {
    match o
    case None => Js.Null
    case Some(s) => Js.Str(s)
  }

  /** `json.Marshal` of a Telemetry: `anomaly_type` is omitted when nil (`omitempty`). */
  function TelemetryJson(t: Telemetry): (v: Js.Value)
    ensures v.Object?
    ensures "anomaly_type" in v.props <==> t.anomalyType.Some?
  {
    var base := map[
      "id" := Num(t.id),
      "timestamp" := Js.Str(t.timestamp),
      "packet_id" := Num(t.packetId),
      "packet_seq_ctrl" := Num(t.packetSeqCtrl),
      "subsystem_id" := Num(t.subsystemId),
      "temperature" := Js.Number(t.temperature),
      "battery" := Js.Number(t.battery),
      "altitude" := Js.Number(t.altitude),
      "signal_strength" := Js.Number(t.signalStrength),
      "is_anomaly" := Js.Bool(t.isAnomaly),
      "created_at" := Js.Str(t.createdAt)];
    Js.Object(if t.anomalyType.Some? then base["anomaly_type" := Js.Str(t.anomalyType.value)] else base)
  }

  /** `json.Marshal` of an Anomaly: `acknowledged_at` is omitted when nil (`omitempty`). */
  function AnomalyJson(a: Anomaly): (v: Js.Value)
    ensures v.Object?
    ensures "acknowledged_at" in v.props <==> a.acknowledgedAt.Some?
  {
    var base := map[
      "id" := Num(a.id),
      "telemetry_id" := Num(a.telemetryId),
      "timestamp" := Js.Str(a.timestamp),
      "anomaly_type" := Js.Str(a.anomalyType),
      "parameter_name" := Js.Str(a.parameterName),
      "parameter_value" := Js.Number(a.parameterValue),
      "threshold_value" := Js.Number(a.thresholdValue),
      "severity" := Js.Str(a.severity),
      "acknowledged" := Js.Bool(a.acknowledged),
      "created_at" := Js.Str(a.createdAt)];
    Js.Object(if a.acknowledgedAt.Some? then base["acknowledged_at" := Js.Str(a.acknowledgedAt.value)] else base)
  }

  /** `json.Marshal` of the three aggregation result structs. */
  function AggregationJson(r: AggregationRow): (v: Js.Value)
    ensures v.Object? && "bucket" in v.props
  {
    match r
    case Summary(bucket, sub, t, b, a, s, packets, anomalies) =>
      Js.Object(map[
        "bucket" := Js.Str(bucket),
        "subsystem_id" := Num(sub),
        "avg_temperature" := Js.Number(t.avg),
        "min_temperature" := Js.Number(t.min),
        "max_temperature" := Js.Number(t.max),
        "avg_battery" := Js.Number(b.avg),
        "min_battery" := Js.Number(b.min),
        "max_battery" := Js.Number(b.max),
        "avg_altitude" := Js.Number(a.avg),
        "min_altitude" := Js.Number(a.min),
        "max_altitude" := Js.Number(a.max),
        "avg_signal_strength" := Js.Number(s.avg),
        "min_signal_strength" := Js.Number(s.min),
        "max_signal_strength" := Js.Number(s.max),
        "packet_count" := Num(packets),
        "anomaly_count" := Num(anomalies)])
    case ExtremeRow(Lowest, bucket, sub, t, b, a, s, packets, anomalies) =>
      Js.Object(map[
        "bucket" := Js.Str(bucket),
        "subsystem_id" := Num(sub),
        "min_temperature" := Js.Number(t),
        "min_battery" := Js.Number(b),
        "min_altitude" := Js.Number(a),
        "min_signal_strength" := Js.Number(s),
        "packet_count" := Num(packets),
        "anomaly_count" := Num(anomalies)])
    case ExtremeRow(Highest, bucket, sub, t, b, a, s, packets, anomalies) =>
      Js.Object(map[
        "bucket" := Js.Str(bucket),
        "subsystem_id" := Num(sub),
        "max_temperature" := Js.Number(t),
        "max_battery" := Js.Number(b),
        "max_altitude" := Js.Number(a),
        "max_signal_strength" := Js.Number(s),
        "packet_count" := Num(packets),
        "anomaly_count" := Num(anomalies)])
  }

  /** `json.Marshal` of a CurrentStatus. */
  function CurrentStatusJson(c: CurrentStatus): (v: Js.Value)
    ensures v.Object?
  {
    Js.Object(map[
      "latest_telemetry" := TelemetryJson(c.latestTelemetry),
      "anomaly_count" := Num(c.anomalyCount),
      "status" := Js.Str(c.status),
      "last_update" := Js.Str(c.lastUpdate)])
  }
}
