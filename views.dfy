/** The dashboard's derived views: the telemetry search filter, the anomaly-type filter,
    the "drop entries without a time" part of the chart formatters, and the anomaly-list
    pagination arithmetic. Every view is recomputed from the loaded lists, which may hold
    `null` entries (`None`). */
module Views {
  import opened Wrappers
  import opened Records
  import Text

  /** `list.filter(x => x && keep(x))`: the non-null entries that `keep` accepts, in order. */
  function KeepWhere<T>(s: seq<Option<T>>, keep: T -> bool): (r: seq<T>)
    ensures |r| <= |s|
    decreases |s|
  {
    if s == [] then []
    else (if s[0].Some? && keep(s[0].value) then [s[0].value] else []) + KeepWhere(s[1..], keep)
  }

  /** Filtering distributes over concatenation: whatever is kept from the front of a list
      comes before whatever is kept from its back, so the result is an order-preserving
      subsequence of the input. */
  lemma {:induction false} KeepWhereAppend<T>(a: seq<Option<T>>, b: seq<Option<T>>, keep: T -> bool)
    ensures KeepWhere(a + b, keep) == KeepWhere(a, keep) + KeepWhere(b, keep)
    decreases |a|
  {
    if a != [] {
      assert (a + b)[1..] == a[1..] + b;
      KeepWhereAppend(a[1..], b, keep);
    } else {
      assert a + b == b;
    }
  }

  /** An element is in the result exactly when it occurs non-null in the input and `keep` accepts it. */
  lemma {:induction false} KeepWhereMembership<T>(s: seq<Option<T>>, keep: T -> bool, x: T)
    ensures x in KeepWhere(s, keep) <==> Some(x) in s && keep(x)
    decreases |s|
  {
    if s != [] {
      KeepWhereMembership(s[1..], keep, x);
      assert s == [s[0]] + s[1..];
    }
  }

  /** The non-null entries of a list, in order. */
  function Present<T>(s: seq<Option<T>>): (r: seq<T>)
    decreases |s|
  {
    if s == [] then [] else (if s[0].Some? then [s[0].value] else []) + Present(s[1..])
  }

  /** A filter that accepts every record keeps exactly the non-null entries, in order. */
  lemma {:induction false} KeepAllIsPresent<T>(s: seq<Option<T>>, keep: T -> bool)
    requires forall x :: keep(x)
    ensures KeepWhere(s, keep) == Present(s)
    decreases |s|
  {
    if s != [] {
      KeepAllIsPresent(s[1..], keep);
    }
  }

  /** The search test of one row: a truthy (non-zero) `packet_id` or `subsystem_id`
      whose decimal text contains the term. */
  predicate SearchMatches(d: Telemetry, term: string)
  {
    (d.packetId != 0 && Text.Contains(Text.IntToString(d.packetId), term))
    || (d.subsystemId != 0 && Text.Contains(Text.IntToString(d.subsystemId), term))
  }

  /** `filteredTelemetryData`: null rows are dropped; an empty term keeps every other row. */
  function FilteredTelemetry(rows: seq<Option<Telemetry>>, term: string): seq<Telemetry>
  {
    KeepWhere(rows, (d: Telemetry) => term == "" || SearchMatches(d, term))
  }

  /** An empty search term shows every non-null row in its original order. */
  lemma EmptySearchKeepsAll(rows: seq<Option<Telemetry>>)
    ensures FilteredTelemetry(rows, "") == Present(rows)
  {
    KeepAllIsPresent(rows, (d: Telemetry) => "" == "" || SearchMatches(d, ""));
  }

  /** With a non-empty term a row is shown iff it is non-null and one of its truthy ids,
      as text, contains the term. */
  lemma SearchMembership(rows: seq<Option<Telemetry>>, term: string, d: Telemetry)
    requires term != ""
    ensures d in FilteredTelemetry(rows, term) <==> Some(d) in rows && SearchMatches(d, term)
  {
    KeepWhereMembership(rows, (x: Telemetry) => term == "" || SearchMatches(x, term), d);
  }

  /** An id of 0 is falsy and never matches, even a term such as "0" that its text contains. */
  lemma ZeroIdsNeverMatch(d: Telemetry, term: string)
    requires d.packetId == 0 && d.subsystemId == 0
    ensures !SearchMatches(d, term)
  {
  }

  /** `filteredAnomalies`: the non-null anomalies of the selected type, or all of them for "". */
  function FilteredAnomalies(anomalies: seq<Option<Anomaly>>, selected: string): seq<Anomaly>
  {
    KeepWhere(anomalies, (a: Anomaly) => selected == "" || a.anomalyType == selected)
  }

  lemma AnomalyFilterMembership(anomalies: seq<Option<Anomaly>>, selected: string, a: Anomaly)
    ensures a in FilteredAnomalies(anomalies, selected)
        <==> Some(a) in anomalies && (selected == "" || a.anomalyType == selected)
  {
    KeepWhereMembership(anomalies, (x: Anomaly) => selected == "" || x.anomalyType == selected, a);
  }

  lemma NoTypeSelectedKeepsAll(anomalies: seq<Option<Anomaly>>)
    ensures FilteredAnomalies(anomalies, "") == Present(anomalies)
  {
    KeepAllIsPresent(anomalies, (x: Anomaly) => "" == "" || x.anomalyType == "");
  }

  /** `list.slice(0, n)`: the first `n` entries, or all of them when there are fewer. */
  function Take<T>(s: seq<T>, n: nat): (r: seq<T>)
    ensures |r| == if |s| < n then |s| else n
    ensures r <= s
  {
    if |s| < n then s else s[..n]
  }

  /** The line chart's rows: the first 50 samples, without those lacking a timestamp. */
  function TelemetryChartRows(rows: seq<Option<Telemetry>>): seq<Telemetry>
  {
    KeepWhere(Take(rows, 50), (d: Telemetry) => d.timestamp != "")
  }

  /** A bar chart's rows: the first 24 buckets, without those lacking a bucket time. */
  function AggregationChartRows(rows: seq<Option<AggregationRow>>): seq<AggregationRow>
  {
    KeepWhere(Take(rows, 24), (b: AggregationRow) => b.bucket != "")
  }

  lemma ChartRowsBounded(rows: seq<Option<Telemetry>>, buckets: seq<Option<AggregationRow>>)
    ensures |TelemetryChartRows(rows)| <= 50
    ensures forall d :: d in TelemetryChartRows(rows) ==> d.timestamp != "" && Some(d) in rows
    ensures |AggregationChartRows(buckets)| <= 24
    ensures forall b :: b in AggregationChartRows(buckets) ==> b.bucket != "" && Some(b) in buckets
  {
    forall d | d in TelemetryChartRows(rows) ensures d.timestamp != "" && Some(d) in rows {
      KeepWhereMembership(Take(rows, 50), (x: Telemetry) => x.timestamp != "", d);
    }
    forall b | b in AggregationChartRows(buckets) ensures b.bucket != "" && Some(b) in buckets {
      KeepWhereMembership(Take(buckets, 24), (x: AggregationRow) => x.bucket != "", b);
    }
  }

  const ANOMALIES_PER_PAGE: nat := 10

  /** `Math.ceil(n / anomaliesPerPage)`: the fewest pages of 10 that hold `n` items. */
  function PageCount(n: nat): (pages: nat)
    ensures n <= pages * ANOMALIES_PER_PAGE
    ensures pages == 0 || (pages - 1) * ANOMALIES_PER_PAGE < n
  {
    (n + ANOMALIES_PER_PAGE - 1) / ANOMALIES_PER_PAGE
  }

  /** `list.slice(page * 10, (page + 1) * 10)`, with JavaScript's clamping of both ends
      to the list length. */
  function PageSlice<T>(s: seq<T>, page: nat): (r: seq<T>)
    ensures |r| <= ANOMALIES_PER_PAGE
    ensures r != [] ==> page * ANOMALIES_PER_PAGE + |r| <= |s|
    ensures page < PageCount(|s|) <==> r != []
    ensures forall i :: 0 <= i < |r| ==> page * ANOMALIES_PER_PAGE + i < |s| && r[i] == s[page * ANOMALIES_PER_PAGE + i]
  {
    var start := page * ANOMALIES_PER_PAGE;
    var end := start + ANOMALIES_PER_PAGE;
    if |s| <= start then [] else if |s| <= end then s[start..] else s[start..end]
  }

  /** Every item is on exactly one page: item `i` is entry `i % 10` of page `i / 10`, and
      that page exists. */
  lemma PagesCoverList<T>(s: seq<T>, i: nat)
    requires i < |s|
    ensures i / ANOMALIES_PER_PAGE < PageCount(|s|)
    ensures i % ANOMALIES_PER_PAGE < |PageSlice(s, i / ANOMALIES_PER_PAGE)|
    ensures PageSlice(s, i / ANOMALIES_PER_PAGE)[i % ANOMALIES_PER_PAGE] == s[i]
  {
    var p := i / ANOMALIES_PER_PAGE;
    assert p * ANOMALIES_PER_PAGE + i % ANOMALIES_PER_PAGE == i;
  }
}
