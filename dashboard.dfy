/** The dashboard's state and the transitions its effects and handlers apply: the six-way
    batch fan-in, the live-status merge, the recency notifier, the anomaly pagination, and
    the `useRealTimeData` poll hook. React's `setX` updates become field assignments;
    each method is one completed effect or handler. */
module Dashboard {
  import opened Wrappers
  import opened Records
  import Views

  /** A list-valued response body: a JSON array (whose entries may be null) or anything else. */
  datatype ListBody<T> = Rows(items: seq<Option<T>>) | NotAnArray

  /** `Array.isArray(x) ? x : []`. */
  function ArrayOrEmpty<T>(b: ListBody<T>): (s: seq<Option<T>>)
    ensures b.NotAnArray? ==> s == []
  {
    if b.Rows? then b.items else []
  }

  /** The six results of one batch, in the order `Promise.all` lists them. */
  datatype BatchResponses = BatchResponses(
    status: Option<CurrentStatus>,
    telemetry: ListBody<Telemetry>,
    aggregations: ListBody<AggregationRow>,
    minAggregations: ListBody<AggregationRow>,
    maxAggregations: ListBody<AggregationRow>,
    anomalies: ListBody<Anomaly>)

  /** A notification the recency notifier appends: title `Anomaly: <type>` and the parts of
      its message `<parameter>: <value> (Thr: <threshold>)`. */
  datatype Notification = Notification(title: string, parameterName: string, parameterValue: real, thresholdValue: real)

  const RECENCY_WINDOW_MS: int := 60000

  /** An anomaly is fresh when it has a timestamp, the timestamp denotes an instant
      (`parseTime` stands for `new Date`), and that instant is strictly later than
      `now - 60000` ms. */
  predicate IsFresh(a: Anomaly, now: int, parseTime: string -> Option<int>)
  {
    a.timestamp != "" && parseTime(a.timestamp).Some? && parseTime(a.timestamp).value > now - RECENCY_WINDOW_MS
  }

  function FreshAnomalies(anomalies: seq<Option<Anomaly>>, now: int, parseTime: string -> Option<int>): seq<Anomaly>
  {
    Views.KeepWhere(anomalies, (a: Anomaly) => IsFresh(a, now, parseTime))
  }

  function NoteFor(a: Anomaly): Notification
  {
    Notification("Anomaly: " + a.anomalyType, a.parameterName, a.parameterValue, a.thresholdValue)
  }

  function NotesFor(s: seq<Anomaly>): (r: seq<Notification>)
    ensures |r| == |s|
    ensures forall i :: 0 <= i < |s| ==> r[i] == NoteFor(s[i])
  {
    seq(|s|, i requires 0 <= i < |s| => NoteFor(s[i]))
  }

  /** The freshness rule on concrete times: 30 s old is fresh, 90 s old is not, and exactly
      60 s old is not either, since the comparison is strict. */
  lemma FreshnessExamples(now: int, parseTime: string -> Option<int>, a: Anomaly, b: Anomaly, c: Anomaly)
    requires a.timestamp != "" && parseTime(a.timestamp) == Some(now - 30000)
    requires b.timestamp != "" && parseTime(b.timestamp) == Some(now - 90000)
    requires c.timestamp != "" && parseTime(c.timestamp) == Some(now - 60000)
    ensures FreshAnomalies([Some(a), Some(b), Some(c)], now, parseTime) == [a]
  {
    var keep := (x: Anomaly) => IsFresh(x, now, parseTime);
    assert [Some(a), Some(b), Some(c)][1..] == [Some(b), Some(c)];
    assert [Some(b), Some(c)][1..] == [Some(c)];
    assert [Some(c)][1..] == [];
    assert Views.KeepWhere([Some(c)], keep) == [];
    assert Views.KeepWhere([Some(b), Some(c)], keep) == [];
    assert Views.KeepWhere([Some(a), Some(b), Some(c)], keep) == [a];
  }

  /** The poll interval the dashboard hands `useRealTimeData`: 5 s with auto-refresh on, none off. */
  function PollInterval(autoRefresh: bool): (interval: Option<nat>)
    ensures interval.Some? <==> autoRefresh
  {
    if autoRefresh then Some(5000) else None
  }

  class DashboardState {
    var currentStatus: Option<CurrentStatus>
    var telemetryData: seq<Option<Telemetry>>
    var aggregations: seq<Option<AggregationRow>>
    var minAggregations: seq<Option<AggregationRow>>
    var maxAggregations: seq<Option<AggregationRow>>
    var anomalies: seq<Option<Anomaly>>
    var notifications: seq<Notification>
    var loading: bool
    var error: Option<string>
    var searchTerm: string
    var selectedAnomalyType: string
    var anomalyPage: int

    function FilteredAnomalies(): seq<Anomaly>
      reads this`anomalies, this`selectedAnomalyType
    {
      Views.FilteredAnomalies(anomalies, selectedAnomalyType)
    }

    function TotalAnomalyPages(): nat
      reads this`anomalies, this`selectedAnomalyType
    {
      Views.PageCount(|FilteredAnomalies()|)
    }

    /** The anomaly page shown always exists: it is 0, or a page below the page count. */
    ghost predicate Valid()
      reads this`anomalies, this`selectedAnomalyType, this`anomalyPage
    {
      0 <= anomalyPage && (anomalyPage == 0 || anomalyPage < TotalAnomalyPages())
    }

    /** The items shown on the current anomaly page. */
    function VisibleAnomalies(): (r: seq<Anomaly>)
      reads this`anomalies, this`selectedAnomalyType, this`anomalyPage
      requires Valid()
      ensures |r| <= Views.ANOMALIES_PER_PAGE
      ensures FilteredAnomalies() != [] ==> r != []
    {
      Views.PageSlice(FilteredAnomalies(), anomalyPage)
    }

    constructor()
      ensures Valid()
      ensures currentStatus == None && error == None && loading
      ensures telemetryData == [] && aggregations == [] && minAggregations == [] && maxAggregations == []
      ensures anomalies == [] && notifications == []
      ensures searchTerm == "" && selectedAnomalyType == "" && anomalyPage == 0
    {
      currentStatus := None;
      telemetryData, aggregations, minAggregations, maxAggregations := [], [], [], [];
      anomalies, notifications := [], [];
      loading, error := true, None;
      searchTerm, selectedAnomalyType := "", "";
      anomalyPage := 0;
    }

    /** Start of the batch effect: `setLoading(true); setError(null)`. */
    method BeginBatch()
      requires Valid()
      modifies this
      ensures Valid()
      ensures loading && error == None
      ensures currentStatus == old(currentStatus) && telemetryData == old(telemetryData)
      ensures aggregations == old(aggregations) && minAggregations == old(minAggregations)
      ensures maxAggregations == old(maxAggregations) && anomalies == old(anomalies)
      ensures notifications == old(notifications) && anomalyPage == old(anomalyPage)
      ensures searchTerm == old(searchTerm) && selectedAnomalyType == old(selectedAnomalyType)
    {
      loading := true;
      error := None;
    }

    /** The notifier effect, run when `anomalies` changes: one notification per fresh
        anomaly, appended in list order, with no check against earlier notifications. */
    method NotifyFresh(now: int, parseTime: string -> Option<int>)
      modifies this`notifications
      ensures notifications == old(notifications) + NotesFor(FreshAnomalies(anomalies, now, parseTime))
    {
      var recent := FreshAnomalies(anomalies, now, parseTime);
      for i := 0 to |recent|
        invariant notifications == old(notifications) + NotesFor(recent[..i])
      {
        assert recent[..i + 1] == recent[..i] + [recent[i]];
        notifications := notifications + [NoteFor(recent[i])];
      }
      assert recent[..|recent|] == recent;
    }

    /** End of the batch effect. On success all six fields are replaced (a non-array list
        becomes []), after which the notifier runs on the new anomalies and the anomaly
        page returns to 0. On failure only `error` is set: the loaded data stay as they
        were. `loading` ends false either way. A completion is applied whenever it arrives;
        nothing discards the result of a superseded batch. */
    method CompleteBatch(outcome: Result<BatchResponses, string>, now: int, parseTime: string -> Option<int>)
      requires Valid()
      modifies this
      ensures Valid()
      ensures !loading
      ensures searchTerm == old(searchTerm) && selectedAnomalyType == old(selectedAnomalyType)
      ensures outcome.Success? ==>
        var r := outcome.value;
        && currentStatus == r.status
        && telemetryData == ArrayOrEmpty(r.telemetry)
        && aggregations == ArrayOrEmpty(r.aggregations)
        && minAggregations == ArrayOrEmpty(r.minAggregations)
        && maxAggregations == ArrayOrEmpty(r.maxAggregations)
        && anomalies == ArrayOrEmpty(r.anomalies)
        && notifications == old(notifications) + NotesFor(FreshAnomalies(anomalies, now, parseTime))
        && anomalyPage == 0
        && error == old(error)
      ensures outcome.Failure? ==>
        && error == Some(outcome.error)
        && currentStatus == old(currentStatus)
        && telemetryData == old(telemetryData)
        && aggregations == old(aggregations)
        && minAggregations == old(minAggregations)
        && maxAggregations == old(maxAggregations)
        && anomalies == old(anomalies)
        && notifications == old(notifications)
        && anomalyPage == old(anomalyPage)
    {
      match outcome {
        case Success(r) => ApplyResponses(r, now, parseTime);
        case Failure(message) => error := Some(message);
      }
      loading := false;
    }

    /** The success half of the batch effect: the six setters, then the notifier on the
        new anomalies, then the page reset. */
    method ApplyResponses(r: BatchResponses, now: int, parseTime: string -> Option<int>)
      modifies this
      ensures Valid()
      ensures currentStatus == r.status
      ensures telemetryData == ArrayOrEmpty(r.telemetry)
      ensures aggregations == ArrayOrEmpty(r.aggregations)
      ensures minAggregations == ArrayOrEmpty(r.minAggregations)
      ensures maxAggregations == ArrayOrEmpty(r.maxAggregations)
      ensures anomalies == ArrayOrEmpty(r.anomalies)
      ensures notifications == old(notifications) + NotesFor(FreshAnomalies(anomalies, now, parseTime))
      ensures anomalyPage == 0
      ensures unchanged(this`error, this`loading, this`searchTerm, this`selectedAnomalyType)
    {
      currentStatus := r.status;
      telemetryData := ArrayOrEmpty(r.telemetry);
      aggregations := ArrayOrEmpty(r.aggregations);
      minAggregations := ArrayOrEmpty(r.minAggregations);
      maxAggregations := ArrayOrEmpty(r.maxAggregations);
      anomalies := ArrayOrEmpty(r.anomalies);
      NotifyFresh(now, parseTime);
      anomalyPage := 0;
    }

    /** The live-status effect: a non-null poll result replaces `currentStatus` wholesale;
        a null one changes nothing. */
    method ApplyLiveStatus(live: Option<CurrentStatus>)
      requires Valid()
      modifies this`currentStatus
      ensures Valid()
      ensures currentStatus == if live.Some? then live else old(currentStatus)
    {
      if live.Some? {
        currentStatus := live;
      }
    }

    /** Choosing an anomaly type; a different choice yields a new filtered list, so the
        page-reset effect sets the page back to 0. */
    method SelectAnomalyType(t: string)
      requires Valid()
      modifies this`selectedAnomalyType, this`anomalyPage
      ensures Valid()
      ensures selectedAnomalyType == t
      ensures anomalyPage == if t == old(selectedAnomalyType) then old(anomalyPage) else 0
    {
      if t != selectedAnomalyType {
        selectedAnomalyType := t;
        anomalyPage := 0;
      }
    }

    method SetSearchTerm(t: string)
      modifies this`searchTerm
      ensures searchTerm == t
    {
      searchTerm := t;
    }

    /** "Last 24 Hours": the search term and the anomaly type are cleared, so both tables
        show every row again; the page resets as for any other change of type. The new
        time window reaches the model as the next batch. */
    method ResetFilters()
      requires Valid()
      modifies this`searchTerm, this`selectedAnomalyType, this`anomalyPage
      ensures Valid()
      ensures searchTerm == "" && selectedAnomalyType == ""
      ensures anomalyPage == if old(selectedAnomalyType) == "" then old(anomalyPage) else 0
      ensures FilteredTelemetry() == Views.Present(telemetryData)
      ensures FilteredAnomalies() == Views.Present(anomalies)
    {
      SetSearchTerm("");
      SelectAnomalyType("");
      Views.EmptySearchKeepsAll(telemetryData);
      Views.NoTypeSelectedKeepsAll(anomalies);
    }

    /** The rows the telemetry table receives. */
    function FilteredTelemetry(): seq<Telemetry>
      reads this`telemetryData, this`searchTerm
    {
      Views.FilteredTelemetry(telemetryData, searchTerm)
    }

    /** "Previous": `Math.max(0, p - 1)`, never below page 0. */
    method PreviousPage()
      requires Valid()
      modifies this`anomalyPage
      ensures Valid()
      ensures anomalyPage == if old(anomalyPage) == 0 then 0 else old(anomalyPage) - 1
    {
      anomalyPage := if anomalyPage - 1 < 0 then 0 else anomalyPage - 1;
    }

    /** "Next": `Math.min(totalAnomalyPages - 1, p + 1)`, never past the last page. The
        button is only rendered when the filtered list is non-empty. */
    method NextPage()
      requires Valid()
      requires FilteredAnomalies() != []
      modifies this`anomalyPage
      ensures Valid()
      ensures anomalyPage <= TotalAnomalyPages() - 1
      ensures anomalyPage == if old(anomalyPage) + 1 <= TotalAnomalyPages() - 1 then old(anomalyPage) + 1 else TotalAnomalyPages() - 1
    {
      var last := TotalAnomalyPages() - 1;
      anomalyPage := if last < anomalyPage + 1 then last else anomalyPage + 1;
    }
  }

  /** `useRealTimeData`: the last fetched value, the loading flag, the last error, and the
      period of the installed interval timer (None when no timer is installed). */
  class RealTimeData {
    var data: Option<CurrentStatus>
    var loading: bool
    var err: Option<string>
    var timer: Option<nat>

    /** Mounting: initial state, then the effect starts a fetch and installs a timer only
        for a non-null interval. */
    constructor(interval: Option<nat>)
      ensures data == None && loading && err == None && timer == interval
    {
      data := None;
      loading := true;
      err := None;
      timer := interval;
    }

    /** The start of `getData`: `setErr(null); setLoading(true)`. */
    method BeginFetch()
      modifies this`err, this`loading
      ensures err == None && loading
    {
      err := None;
      loading := true;
    }

    /** The end of `getData`: a result replaces `data`; a failure records its message and
        leaves the previous `data` untouched. `loading` ends false either way. */
    method CompleteFetch(outcome: Result<Option<CurrentStatus>, string>)
      modifies this`data, this`err, this`loading
      ensures !loading
      ensures outcome.Success? ==> data == outcome.value && err == old(err)
      ensures outcome.Failure? ==> data == old(data) && err == Some(outcome.error)
    {
      match outcome {
        case Success(v) => data := v;
        case Failure(message) => err := Some(message);
      }
      loading := false;
    }

    /** A change of interval: the old timer is cleared, a fetch starts at once, and a new
        timer is installed only when the interval is non-null, so at most one is ever live. */
    method ChangeInterval(interval: Option<nat>)
      modifies this`timer, this`err, this`loading
      ensures timer == interval
      ensures err == None && loading
      ensures data == old(data)
    {
      timer := None;
      BeginFetch();
      if interval.Some? {
        timer := interval;
      }
    }
  }

  /** Two batches delivering the same fresh anomaly notify it twice: the notifier keeps no
      record of what it has already announced. */
  method RepeatedDeliveryNotifiesTwice(a: Anomaly, now: int, parseTime: string -> Option<int>) returns (count: nat)
    requires IsFresh(a, now, parseTime)
    ensures count == 2
  {
    var batch := BatchResponses(None, Rows([]), Rows([]), Rows([]), Rows([]), Rows([Some(a)]));
    assert FreshAnomalies([Some(a)], now, parseTime) == [a];
    var d := new DashboardState();
    d.BeginBatch();
    d.CompleteBatch(Success(batch), now, parseTime);
    d.BeginBatch();
    d.CompleteBatch(Success(batch), now, parseTime);
    count := |d.notifications|;
  }

  /** A batch that started first but completes last overwrites the later batch's data. */
  method StaleBatchWins(older: BatchResponses, newer: BatchResponses, now: int, parseTime: string -> Option<int>)
    returns (shown: seq<Option<Telemetry>>)
    ensures shown == ArrayOrEmpty(older.telemetry)
  {
    var d := new DashboardState();
    d.BeginBatch();
    d.BeginBatch();
    d.CompleteBatch(Success(newer), now, parseTime);
    d.CompleteBatch(Success(older), now, parseTime);
    shown := d.telemetryData;
  }

  /** A failed batch keeps what an earlier batch loaded and only reports the error. */
  method FailureKeepsLoadedData(loaded: BatchResponses, message: string, now: int, parseTime: string -> Option<int>)
    returns (shown: seq<Option<Telemetry>>, error: Option<string>)
    ensures shown == ArrayOrEmpty(loaded.telemetry)
    ensures error == Some(message)
  {
    var d := new DashboardState();
    d.BeginBatch();
    d.CompleteBatch(Success(loaded), now, parseTime);
    d.BeginBatch();
    d.CompleteBatch(Failure(message), now, parseTime);
    shown, error := d.telemetryData, d.error;
  }
}
