/** The SQL the telemetry API sends: query text grown clause by clause, positional `$n`
    placeholders and the argument list kept in step with them. The text is given with its
    whitespace folded onto one line. */
module Sql {
  import opened Text

  /** A bound argument: a string, or the integer `strconv.Atoi` produced. */
  datatype SqlArg = Str(s: string) | Integer(i: int)

  /** The query text and the arguments bound to its placeholders. */
  datatype Query = Query(text: seq<Fragment>, args: seq<SqlArg>)

  // ---------------------------------------------------------------------------
  // Query text
  // ---------------------------------------------------------------------------

  /** The fixed pieces of SQL the handlers concatenate. */
  datatype Clause =
    | SelectList(source: ListSource)
    | SelectBucket
    | AggregateColumns(kind: AggregationKind)
    | TimeFrom
    | TimeUntil
    | OrderByTimestamp
    | Limit
    | GroupByBucket
    | CountAnomalies

  /** A piece of query text: a fixed clause, or the positional parameter `$index` that
      `fmt.Sprintf("... $%d", argCount)` writes. */
  datatype Fragment = Sql(clause: Clause) | Param(index: nat)

  /** The SQL text of each clause, its whitespace folded onto one line. */
  function ClauseSql(c: Clause): string
  {
    match c
    case SelectList(TelemetryTable) =>
      "SELECT id, timestamp, packet_id, packet_seq_ctrl, subsystem_id, temperature, battery, altitude, signal_strength, is_anomaly, anomaly_type, created_at FROM telemetry WHERE 1=1"
    case SelectList(AnomalyHistoryTable) =>
      "SELECT id, telemetry_id, timestamp, anomaly_type, parameter_name, parameter_value, threshold_value, severity, acknowledged, acknowledged_at, created_at FROM anomaly_history WHERE 1=1"
    case SelectBucket => "SELECT time_bucket("
    case AggregateColumns(kind) =>
      ", timestamp) AS bucket, subsystem_id, " + AggregationColumns(kind)
      + ", COUNT(*) as packet_count, COUNT(*) FILTER (WHERE is_anomaly) as anomaly_count FROM telemetry WHERE 1=1"
    case TimeFrom => " AND timestamp >= "
    case TimeUntil => " AND timestamp <= "
    case OrderByTimestamp => " ORDER BY timestamp DESC"
    case Limit => " LIMIT "
    case GroupByBucket => " GROUP BY bucket, subsystem_id ORDER BY bucket DESC"
    case CountAnomalies => "SELECT COUNT(*) FROM anomaly_history WHERE 1=1"
  }

  /** The text sent to the database. */
  function Render(q: seq<Fragment>): string
  {
    if q == [] then ""
    else
      var head := match q[0] case Sql(c) => ClauseSql(c) case Param(k) => "$" + Decimal(k);
      head + Render(q[1..])
  }

  /** The parameter a fragment refers to, if it is one. */
  function ParamOf(f: Fragment): seq<nat>
  {
    match f
    case Sql(_) => []
    case Param(k) => [k]
  }

  /** The positional parameters of a query, in order of appearance. */
  function Params(q: seq<Fragment>): seq<nat>
  {
    if q == [] then [] else ParamOf(q[0]) + Params(q[1..])
  }

  /** `$first`, `$first + 1`, … : n numbers in a row. */
  function Consecutive(first: nat, n: nat): (r: seq<nat>)
    ensures |r| == n
    ensures forall i :: 0 <= i < n ==> r[i] == first + i
  {
    seq(n, i => first + i)
  }

  /** Appending text appends its parameters. */
  lemma {:induction false} ParamsAppend(a: seq<Fragment>, b: seq<Fragment>)
    ensures Params(a + b) == Params(a) + Params(b)
    decreases |a|
  {
    if a == [] {
      assert a + b == b;
    } else {
      assert (a + b)[1..] == a[1..] + b;
      ParamsAppend(a[1..], b);
    }
  }

  /** Appending fragments appends their text: the `+=` on the query string. */
  lemma {:induction false} RenderAppend(a: seq<Fragment>, b: seq<Fragment>)
    ensures Render(a + b) == Render(a) + Render(b)
    decreases |a|
  {
    if a == [] {
      assert a + b == b;
    } else {
      assert (a + b)[1..] == a[1..] + b;
      RenderAppend(a[1..], b);
    }
  }

  // ---------------------------------------------------------------------------
  // Integers from query strings
  // ---------------------------------------------------------------------------

  const INT64_MIN: int := -0x8000_0000_0000_0000
  const INT64_MAX: int := 0x7FFF_FFFF_FFFF_FFFF

  const UINT64_MAX: int := 0xFFFF_FFFF_FFFF_FFFF

  /** What follows an optional leading `+` or `-`. */
  function Unsigned(s: string): (body: string)
    ensures |body| <= |s|
    ensures s != [] && s[0] != '-' && s[0] != '+' ==> body == s
  {
    if s != [] && (s[0] == '-' || s[0] == '+') then s[1..] else s
  }

  /** The longest prefix of decimal digits. */
  function DigitRun(s: string): (d: string)
    ensures AllDigits(d) && d <= s
    decreases |s|
  {
    if s == [] || !IsDigit(s[0]) then [] else [s[0]] + DigitRun(s[1..])
  }

  /** A digit string followed by a non-digit (or nothing) has exactly those digits as its run. */
  lemma {:induction false} DigitRunOf(d: string, rest: string)
    requires AllDigits(d)
    requires rest == [] || !IsDigit(rest[0])
    ensures DigitRun(d + rest) == d
    decreases |d|
  {
    if d == [] {
      assert d + rest == rest;
    } else {
      assert (d + rest)[0] == d[0] && (d + rest)[1..] == d[1..] + rest;
      DigitRunOf(d[1..], rest);
    }
  }

  /** The value `strconv.Atoi` returns, its error being ignored. The digits after an optional
      sign are read from the left; a non-digit before they exceed 2^64 - 1 is a syntax error
      and gives 0. A digit run that exceeds 2^64 - 1 is a range error, reported before any
      later character is read, and so is any all-digit value outside the 64-bit range: both
      give the int64 bound of the sign. A sign with no digits, or the empty string, gives 0. */
  function Atoi(s: string): (r: int)
    ensures INT64_MIN <= r <= INT64_MAX
  {
    var body := Unsigned(s);
    var digits := DigitRun(body);
    if digits == [] || (digits != body && DigitsValue(digits) <= UINT64_MAX) then 0
    else
      var magnitude := DigitsValue(digits);
      var v: int := if s[0] == '-' then 0 - magnitude else magnitude;
      if v < INT64_MIN then INT64_MIN else if v > INT64_MAX then INT64_MAX else v
  }

  /** Atoi reads back any rendered 64-bit integer. */
  lemma AtoiRoundTrip(n: int)
    requires INT64_MIN <= n <= INT64_MAX
    ensures Atoi(IntToString(n)) == n
  {
    var s := IntToString(n);
    var m := if n < 0 then -n else n;
    DecimalRoundTrip(m);
    DigitRunOf(Decimal(m), []);
    assert Decimal(m) + [] == Decimal(m);
    if n < 0 {
      assert s[0] == '-' && Unsigned(s) == Decimal(m);
    } else {
      assert s == Decimal(m) && Unsigned(s) == s;
    }
  }

  /** Atoi gives 0 on the empty string, and on a string with a character other than a
      leading sign and digits, provided the digits before it stay within 2^64 - 1. */
  lemma AtoiRejects(s: string, i: nat)
    requires i < |s| && !IsDigit(s[i]) && (i == 0 ==> s[0] != '-' && s[0] != '+')
    requires DigitsValue(DigitRun(Unsigned(s))) <= UINT64_MAX
    ensures Atoi(s) == 0
    ensures Atoi([]) == 0
  {
    var body := Unsigned(s);
    var j := if body == s then i else i - 1;
    assert 0 <= j < |body| && !IsDigit(body[j]);
  }

  /** A digit run beyond 2^64 - 1 saturates to the bound of the sign, whatever follows it. */
  lemma AtoiSaturates(sign: string, d: string, rest: string)
    requires sign == "" || sign == "+" || sign == "-"
    requires AllDigits(d) && DigitsValue(d) > UINT64_MAX
    requires rest == [] || !IsDigit(rest[0])
    ensures Atoi(sign + d + rest) == if sign == "-" then INT64_MIN else INT64_MAX
  {
    var body := d + rest;
    var s := sign + body;
    assert sign + d + rest == s;
    assert DigitRun(body) == d by {
      DigitRunOf(d, rest);
    }
    assert s != [] && Unsigned(s) == body && (s[0] == '-' <==> sign == "-") by {
      if sign == "" {
        assert s == body && body[0] == d[0];
      } else if sign == "+" {
        assert s[0] == '+' && s[1..] == body;
      } else {
        assert s[0] == '-' && s[1..] == body;
      }
    }
    SaturatedValue(s, body);
  }

  lemma SaturatedValue(s: string, body: string)
    requires s != [] && Unsigned(s) == body && DigitsValue(DigitRun(body)) > UINT64_MAX
    ensures Atoi(s) == if s[0] == '-' then INT64_MIN else INT64_MAX
  {
  }

  // ---------------------------------------------------------------------------
  // The time-range clauses shared by every builder
  // ---------------------------------------------------------------------------

  /** A time bound taken from `start_time` (lower) or `end_time` (upper). */
  datatype Bound = From(start: string) | Until(end: string)

  /** The bounds a request sets: each non-empty parameter, start before end. */
  function Bounds(startTime: string, endTime: string): (bs: seq<Bound>)
    ensures |bs| == (if startTime != "" then 1 else 0) + (if endTime != "" then 1 else 0)
  {
    (if startTime != "" then [From(startTime)] else []) + (if endTime != "" then [Until(endTime)] else [])
  }

  function BoundClause(b: Bound): Clause
  {
    match b
    case From(_) => TimeFrom
    case Until(_) => TimeUntil
  }

  function BoundArg(b: Bound): SqlArg
  {
    match b
    case From(s) => Str(s)
    case Until(s) => Str(s)
  }

  /** The clauses for `bs`, numbered from `first` on. */
  function Numbered(bs: seq<Bound>, first: nat): (r: seq<Fragment>)
    ensures |r| == 2 * |bs|
  {
    if bs == [] then [] else [Sql(BoundClause(bs[0])), Param(first)] + Numbered(bs[1..], first + 1)
  }

  function BoundArgs(bs: seq<Bound>): (r: seq<SqlArg>)
    ensures |r| == |bs|
    ensures forall i :: 0 <= i < |bs| ==> r[i] == BoundArg(bs[i])
  {
    seq(|bs|, i requires 0 <= i < |bs| => BoundArg(bs[i]))
  }

  /** The clauses for `bs` carry the placeholders `first`, `first + 1`, … in order. */
  lemma {:induction false} NumberedParams(bs: seq<Bound>, first: nat)
    ensures Params(Numbered(bs, first)) == Consecutive(first, |bs|)
    decreases |bs|
  {
    if bs != [] {
      var head := [Sql(BoundClause(bs[0])), Param(first)];
      ParamsAppend(head, Numbered(bs[1..], first + 1));
      assert Params(head) == [first] by {
        assert head[1..][1..] == [];
      }
      NumberedParams(bs[1..], first + 1);
      ConsecutiveSnoc(first, |bs| - 1);
    }
  }

  /** The time-range step of every handler: a non-empty `start_time` adds the lower bound and a
      non-empty `end_time` the upper bound, each with the next placeholder number and its
      argument. */
  method AppendTimeBounds(query: seq<Fragment>, args: seq<SqlArg>, argCount: nat, startTime: string, endTime: string)
    returns (query': seq<Fragment>, args': seq<SqlArg>, argCount': nat)
    requires argCount == |args|
    ensures query' == query + Numbered(Bounds(startTime, endTime), argCount + 1)
    ensures args' == args + BoundArgs(Bounds(startTime, endTime))
    ensures argCount' == |args'|
  {
    query', args', argCount' := query, args, argCount;
    if startTime != "" {
      argCount' := argCount' + 1;
      query' := query' + [Sql(TimeFrom), Param(argCount')];
      args' := args' + [Str(startTime)];
    }
    if endTime != "" {
      argCount' := argCount' + 1;
      query' := query' + [Sql(TimeUntil), Param(argCount')];
      args' := args' + [Str(endTime)];
    }
    ghost var bs := Bounds(startTime, endTime);
    ghost var k := argCount + 1;
    if |bs| == 1 {
      assert Numbered(bs, k) == [Sql(BoundClause(bs[0])), Param(k)] + Numbered([], k + 1);
    } else if |bs| == 2 {
      assert bs[1..][1..] == [];
      assert Numbered(bs, k) == [Sql(TimeFrom), Param(k)] + ([Sql(TimeUntil), Param(k + 1)] + Numbered([], k + 2));
    }
  }

  // ---------------------------------------------------------------------------
  // The queries
  // ---------------------------------------------------------------------------

  /** The two list endpoints: `/telemetry` and `/telemetry/anomalies`. */
  datatype ListSource = TelemetryTable | AnomalyHistoryTable

  /** The list query: the bounds, then the ordering, then the limit when one is given. */
  function ListQuery(source: ListSource, startTime: string, endTime: string, limit: string): Query
  {
    var bs := Bounds(startTime, endTime);
    Query(
      [Sql(SelectList(source))] + (Numbered(bs, 1) + Ordering(|bs| + 1, limit != "")),
      BoundArgs(bs) + (if limit != "" then [Integer(Atoi(limit))] else []))
  }

  /** The ordering clause, then the limit clause with placeholder `k` when there is one. */
  function Ordering(k: nat, withLimit: bool): seq<Fragment>
  {
    [Sql(OrderByTimestamp)] + (if withLimit then [Sql(Limit), Param(k)] else [])
  }

  /** Query construction in `getTelemetry` and `getAnomalies`. */
  method BuildListQuery(source: ListSource, startTime: string, endTime: string, limit: string) returns (q: Query)
    ensures q == ListQuery(source, startTime, endTime, limit)
  {
    var query := [Sql(SelectList(source))];
    var args: seq<SqlArg> := [];
    var argCount := 0;
    query, args, argCount := AppendTimeBounds(query, args, argCount, startTime, endTime);
    ghost var bounded := query;
    query := query + [Sql(OrderByTimestamp)];
    if limit != "" {
      argCount := argCount + 1;
      query := query + [Sql(Limit), Param(argCount)];
      var limitInt := Atoi(limit);
      args := args + [Integer(limitInt)];
    }
    assert query == bounded + Ordering(|Bounds(startTime, endTime)| + 1, limit != "") by {
      if limit != "" {
        assert query == bounded + [Sql(OrderByTimestamp)] + [Sql(Limit), Param(argCount)];
      }
    }
    q := Query(query, args);
  }

  /** The list query's placeholders are `$1` … `$n` in order, n being the number of
      arguments. */
  lemma ListQueryParams(source: ListSource, startTime: string, endTime: string, limit: string)
    ensures var q := ListQuery(source, startTime, endTime, limit);
      Params(q.text) == Consecutive(1, |q.args|)
  {
    var bs := Bounds(startTime, endTime);
    var head := [Sql(SelectList(source))];
    var rest := Numbered(bs, 1) + Ordering(|bs| + 1, limit != "");
    BoundsThenOrderingParams(bs, limit != "");
    assert (head + rest)[1..] == rest;
  }

  /** The bound clauses followed by the ordering hold `$1` … `$n` in order. */
  lemma BoundsThenOrderingParams(bs: seq<Bound>, withLimit: bool)
    ensures Params(Numbered(bs, 1) + Ordering(|bs| + 1, withLimit))
         == Consecutive(1, |bs| + (if withLimit then 1 else 0))
  {
    var n := |bs|;
    OrderingParams(n + 1, withLimit);
    NumberedParams(bs, 1);
    ParamsAppend(Numbered(bs, 1), Ordering(n + 1, withLimit));
    if withLimit {
      ConsecutiveSnoc(1, n);
    } else {
      assert Consecutive(1, n) + [] == Consecutive(1, n);
    }
  }

  /** The ordering follows the bounds, and the limit, when given, is the last thing in the
      text. */
  lemma ListQueryOrder(source: ListSource, startTime: string, endTime: string, limit: string)
    ensures var q := ListQuery(source, startTime, endTime, limit);
      && |q.text| == 2 * |Bounds(startTime, endTime)| + (if limit != "" then 4 else 2)
      && q.text[2 * |Bounds(startTime, endTime)| + 1] == Sql(OrderByTimestamp)
      && (limit != "" ==> q.text[|q.text| - 2..] == [Sql(Limit), Param(|q.args|)])
  {
  }

  /** The ordering and limit clauses hold only the limit's placeholder. */
  lemma OrderingParams(k: nat, withLimit: bool)
    ensures Params(Ordering(k, withLimit)) == if withLimit then [k] else []
  {
    var tail := Ordering(k, withLimit);
    if withLimit {
      assert tail == [Sql(OrderByTimestamp), Sql(Limit), Param(k)];
      assert Params([Param(k)]) == [k];
      assert Params([Sql(Limit), Param(k)]) == [k] by {
        assert [Sql(Limit), Param(k)][1..] == [Param(k)];
      }
      assert tail[1..] == [Sql(Limit), Param(k)];
    } else {
      assert tail[1..] == [];
    }
  }

  lemma ConsecutiveSnoc(first: nat, n: nat)
    ensures Consecutive(first, n) + [first + n] == Consecutive(first, n + 1)
    ensures [first] + Consecutive(first + 1, n) == Consecutive(first, n + 1)
  {
  }

  /** What the arguments are: `start_time` first when given, then `end_time`, then the
      limit as the integer `Atoi` reads. */
  lemma ListQueryArgs(source: ListSource, startTime: string, endTime: string, limit: string)
    ensures var q := ListQuery(source, startTime, endTime, limit);
      && |q.args| == |Bounds(startTime, endTime)| + (if limit != "" then 1 else 0)
      && (startTime != "" ==> q.args[0] == Str(startTime))
      && (endTime != "" ==> q.args[if startTime != "" then 1 else 0] == Str(endTime))
      && (limit != "" ==> q.args[|q.args| - 1] == Integer(Atoi(limit)))
  {
  }

  /** The three aggregation endpoints. */
  datatype AggregationKind = Average | Minimum | Maximum

  function AggregationColumns(kind: AggregationKind): string
  {
    match kind
    case Average =>
      "AVG(temperature) as avg_temperature, MIN(temperature) as min_temperature, MAX(temperature) as max_temperature, "
      + "AVG(battery) as avg_battery, MIN(battery) as min_battery, MAX(battery) as max_battery, "
      + "AVG(altitude) as avg_altitude, MIN(altitude) as min_altitude, MAX(altitude) as max_altitude, "
      + "AVG(signal_strength) as avg_signal_strength, MIN(signal_strength) as min_signal_strength, MAX(signal_strength) as max_signal_strength"
    case Minimum =>
      "MIN(temperature) as min_temperature, MIN(battery) as min_battery, MIN(altitude) as min_altitude, MIN(signal_strength) as min_signal_strength"
    case Maximum =>
      "MAX(temperature) as max_temperature, MAX(battery) as max_battery, MAX(altitude) as max_altitude, MAX(signal_strength) as max_signal_strength"
  }

  /** The aggregation SELECT, whose bucket width is the placeholder `$1`. */
  function AggregationSelect(kind: AggregationKind): seq<Fragment>
  {
    [Sql(SelectBucket), Param(1), Sql(AggregateColumns(kind))]
  }

  function AggregationQuery(kind: AggregationKind, startTime: string, endTime: string, bucketSize: string): Query
  {
    var bs := Bounds(startTime, endTime);
    Query(AggregationSelect(kind) + Numbered(bs, 2) + [Sql(GroupByBucket)], [Str(bucketSize)] + BoundArgs(bs))
  }

  /** Query construction in `getAggregations`, `getMinAggregations` and `getMaxAggregations`. */
  method BuildAggregationQuery(kind: AggregationKind, startTime: string, endTime: string, bucketSize: string) returns (q: Query)
    ensures q == AggregationQuery(kind, startTime, endTime, bucketSize)
  {
    var query := AggregationSelect(kind);
    var args := [Str(bucketSize)];
    var argCount := 1;
    query, args, argCount := AppendTimeBounds(query, args, argCount, startTime, endTime);
    query := query + [Sql(GroupByBucket)];
    q := Query(query, args);
  }

  /** The bucket width is `$1` and the bounds are numbered from `$2`: the placeholders are
      `$1` … `$n` with n the number of arguments, the first argument being the width. */
  lemma AggregationQueryParams(kind: AggregationKind, startTime: string, endTime: string, bucketSize: string)
    ensures var q := AggregationQuery(kind, startTime, endTime, bucketSize);
      && Params(q.text) == Consecutive(1, |q.args|)
      && q.args[0] == Str(bucketSize)
  {
    var bs := Bounds(startTime, endTime);
    var select := AggregationSelect(kind);
    var rest := Numbered(bs, 2) + [Sql(GroupByBucket)];
    assert Params(select) == [1] by {
      assert select[1..][1..][1..] == [];
    }
    assert Params(rest) == Consecutive(2, |bs|) by {
      NumberedParams(bs, 2);
      ParamsAppend(Numbered(bs, 2), [Sql(GroupByBucket)]);
    }
    assert Params(select + rest) == Consecutive(1, |bs| + 1) by {
      ParamsAppend(select, rest);
      ConsecutiveSnoc(1, |bs|);
    }
    assert AggregationQuery(kind, startTime, endTime, bucketSize).text == select + rest;
  }

  function AnomalyCountQuery(startTime: string, endTime: string): Query
  {
    var bs := Bounds(startTime, endTime);
    Query([Sql(CountAnomalies)] + Numbered(bs, 1), BoundArgs(bs))
  }

  /** Query construction in `getAnomalyCount`: the bounds alone, with no ordering or limit. */
  method BuildAnomalyCountQuery(startTime: string, endTime: string) returns (q: Query)
    ensures q == AnomalyCountQuery(startTime, endTime)
  {
    var query := [Sql(CountAnomalies)];
    var args: seq<SqlArg> := [];
    var argCount := 0;
    query, args, argCount := AppendTimeBounds(query, args, argCount, startTime, endTime);
    q := Query(query, args);
  }

  /** The count query's placeholders are `$1` … `$n`; it binds only the bounds, and its text
      ends with the last bound (no ordering, no limit). */
  lemma AnomalyCountQueryParams(startTime: string, endTime: string)
    ensures var q := AnomalyCountQuery(startTime, endTime);
      && Params(q.text) == Consecutive(1, |q.args|)
      && q.args == BoundArgs(Bounds(startTime, endTime))
      && forall i :: 0 <= i < |q.text| ==> q.text[i] != Sql(OrderByTimestamp) && q.text[i] != Sql(Limit)
  {
    var bs := Bounds(startTime, endTime);
    assert Params([Sql(CountAnomalies)] + Numbered(bs, 1)) == Consecutive(1, |bs|) by {
      NumberedParams(bs, 1);
      ParamsAppend([Sql(CountAnomalies)], Numbered(bs, 1));
    }
    NumberedClauses(bs, 1);
  }

  /** Bound clauses hold only bound texts and parameters. */
  lemma {:induction false} NumberedClauses(bs: seq<Bound>, first: nat)
    ensures forall f :: f in Numbered(bs, first) ==> f.Param? || f.clause == TimeFrom || f.clause == TimeUntil
    decreases |bs|
  {
    if bs != [] {
      NumberedClauses(bs[1..], first + 1);
    }
  }
}
