/** The dashboard's threshold classifier (`getMetricClass`) and its status-to-class map
    (`getStatusClass`), with the fixed operating band of each vital. */
module MetricClassifier {
  import opened Records

  /** The CSS class a metric value is shown with. */
  datatype MetricClass = Alert | Warning | Ok

  function ClassName(c: MetricClass): string
  {
    match c
    case Alert => "alert"
    case Warning => "warning"
    case Ok => "success"
  }

  /** `getMetricClass(v, min, max)`: "alert" outside the band, else "warning" below
      `min * 1.1` or above `max * 0.9`, else "success". */
  function GetMetricClass(v: real, min: real, max: real): (c: MetricClass)
    ensures c == Alert <==> !(min <= v <= max)
    ensures c == Ok <==> min <= v <= max && min * 1.1 <= v <= max * 0.9
    ensures c == Warning <==> min <= v <= max && !(min * 1.1 <= v <= max * 0.9)
  {
    if v < min || v > max then Alert
    else if v < min * 1.1 || v > max * 0.9 then Warning
    else Ok
  }

  /** A value on either edge of its band is never "alert", whatever the band. */
  lemma EdgesAreNotAlert(min: real, max: real)
    requires min <= max
    ensures GetMetricClass(min, min, max) != Alert
    ensures GetMetricClass(max, min, max) != Alert
  {
  }

  /** For a band with a positive lower edge, the lower edge itself is "warning". */
  lemma PositiveLowerEdgeWarns(min: real, max: real)
    requires 0.0 < min <= max
    ensures GetMetricClass(min, min, max) == Warning
  {
  }

  /** For a band whose edges are both at or below zero, `min * 1.1` lies below the band and
      `max * 0.9` above it, so "warning" is unreachable: every value is "alert" or "success". */
  lemma NonPositiveBandNeverWarns(v: real, min: real, max: real)
    requires min <= 0.0 && max <= 0.0
    ensures GetMetricClass(v, min, max) != Warning
  {
  }

  // The operating bands the dashboard passes for the four vitals.
  const TEMPERATURE_MIN: real := 20.0
  const TEMPERATURE_MAX: real := 35.0
  const BATTERY_MIN: real := 40.0
  const BATTERY_MAX: real := 100.0
  const ALTITUDE_MIN: real := 400.0
  const ALTITUDE_MAX: real := 1000.0
  const SIGNAL_MIN: real := -80.0
  const SIGNAL_MAX: real := -20.0

  /** The classes of the four vitals of the latest sample in a status record. */
  datatype VitalClasses = VitalClasses(temperature: MetricClass, battery: MetricClass, altitude: MetricClass, signal: MetricClass)

  function VitalClassesOf(t: Telemetry): VitalClasses
  {
    VitalClasses(
      GetMetricClass(t.temperature, TEMPERATURE_MIN, TEMPERATURE_MAX),
      GetMetricClass(t.battery, BATTERY_MIN, BATTERY_MAX),
      GetMetricClass(t.altitude, ALTITUDE_MIN, ALTITUDE_MAX),
      GetMetricClass(t.signalStrength, SIGNAL_MIN, SIGNAL_MAX))
  }

  /** What each band's classes work out to: the "success" ranges are [22, 31.5] degrees,
      [44, 90] percent and [440, 900] km, and the signal is never "warning". */
  lemma VitalBands(t: Telemetry)
    ensures VitalClassesOf(t).temperature == Ok <==> 22.0 <= t.temperature <= 31.5
    ensures VitalClassesOf(t).battery == Ok <==> 44.0 <= t.battery <= 90.0
    ensures VitalClassesOf(t).altitude == Ok <==> 440.0 <= t.altitude <= 900.0
    ensures VitalClassesOf(t).signal == Ok <==> -80.0 <= t.signalStrength <= -20.0
    ensures VitalClassesOf(t).signal != Warning
  {
    NonPositiveBandNeverWarns(t.signalStrength, SIGNAL_MIN, SIGNAL_MAX);
  }

  /** `getStatusClass(s)`: the CSS class of the three known statuses, "" for anything else. */
  function GetStatusClass(s: string): (c: string)
    ensures s == "NORMAL" ==> c == "status-normal"
    ensures s == "WARNING" ==> c == "status-warning"
    ensures s == "ANOMALY" ==> c == "status-anomaly"
    ensures c != "" <==> s in {"NORMAL", "WARNING", "ANOMALY"}
  {
    if s == "NORMAL" then "status-normal"
    else if s == "WARNING" then "status-warning"
    else if s == "ANOMALY" then "status-anomaly"
    else ""
  }

  /** The three statuses the API derives get three different classes, so the status
      panel tells them apart. */
  lemma StatusClassesDistinct(s: string, t: string)
    requires s in {"NORMAL", "WARNING", "ANOMALY"} && t in {"NORMAL", "WARNING", "ANOMALY"}
    requires s != t
    ensures GetStatusClass(s) != GetStatusClass(t)
  {
  }
}
