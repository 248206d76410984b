/** The client's fetch gateway: `handleResponse`, the query strings its fetchers assemble
    through `URLSearchParams`, the URLs they request, and the rethrow-unchanged error path.
    The network is a parameter: `network(url)` is what `fetch(url)` resolves to, or the
    message of the error it rejects with. This client library is not the page's own fetch
    path: the dashboard page calls `axios` directly. */
module Gateway {
  import opened Wrappers
  import Text
  import Js

  /** The UTF-8 bytes of one character. */
  function Utf8(c: char): (bytes: seq<nat>)
    ensures 1 <= |bytes| <= 4
    ensures forall i :: 0 <= i < |bytes| ==> bytes[i] < 256
  {
    var cp := c as int;
    if cp < 0x80 then [cp]
    else if cp < 0x800 then [0xC0 + cp / 0x40, 0x80 + cp % 0x40]
    else if cp < 0x1_0000 then [0xE0 + cp / 0x1000, 0x80 + (cp / 0x40) % 0x40, 0x80 + cp % 0x40]
    else [0xF0 + cp / 0x4_0000, 0x80 + (cp / 0x1000) % 0x40, 0x80 + (cp / 0x40) % 0x40, 0x80 + cp % 0x40]
  }

  /** The bytes the form-urlencoded serializer leaves as they are: `*-._`, digits, letters. */
  predicate Unreserved(b: nat)
  {
    b == 0x2A || b == 0x2D || b == 0x2E || 0x30 <= b <= 0x39 || 0x41 <= b <= 0x5A || b == 0x5F || 0x61 <= b <= 0x7A
  }

  function HexDigit(d: nat): (c: char)
    requires d < 16
    ensures c != '&' && c != '='
  {
    if d < 10 then (('0' as int) + d) as char else (('A' as int) + d - 10) as char
  }

  /** One byte as `URLSearchParams` writes it: space as `+`, unreserved bytes as
      themselves, every other byte as `%XX` in upper-case hex. */
  function EncodeByte(b: nat): (r: string)
    requires b < 256
    ensures 1 <= |r| <= 3
    ensures '&' !in r && '=' !in r
  {
    if b == 0x20 then "+"
    else if Unreserved(b) then [b as char]
    else ['%', HexDigit(b / 16), HexDigit(b % 16)]
  }

  function EncodeBytes(bytes: seq<nat>): (r: string)
    requires forall i :: 0 <= i < |bytes| ==> bytes[i] < 256
    ensures '&' !in r && '=' !in r
    ensures |r| >= |bytes|
    decreases |bytes|
  {
    if bytes == [] then "" else EncodeByte(bytes[0]) + EncodeBytes(bytes[1..])
  }

  /** The application/x-www-form-urlencoded encoding of a name or a value. Its output
      never contains the separators `&` and `=`, so a serialized query splits back into
      its pairs. */
  function FormEncode(s: string): (r: string)
    ensures '&' !in r && '=' !in r
    ensures |r| >= |s|
    decreases |s|
  {
    if s == [] then "" else EncodeBytes(Utf8(s[0])) + FormEncode(s[1..])
  }

  function SerializePair(p: (string, string)): (r: string)
    ensures r != "" && '&' !in r
  {
    FormEncode(p.0) + "=" + FormEncode(p.1)
  }

  /** `URLSearchParams.toString()`: the encoded pairs joined by `&`. */
  function Serialize(pairs: seq<(string, string)>): (r: string)
    ensures r == "" <==> pairs == []
    decreases |pairs|
  {
    if pairs == [] then ""
    else if |pairs| == 1 then SerializePair(pairs[0])
    else Serialize(pairs[..|pairs| - 1]) + "&" + SerializePair(pairs[|pairs| - 1])
  }

  /** The pieces of `s` between occurrences of `sep`, as a server splits a query string. */
  function Split(s: string, sep: char): (parts: seq<string>)
    ensures |parts| >= 1
    decreases |s|
  {
    if s == [] then [""]
    else
      var rest := Split(s[1..], sep);
      if s[0] == sep then [""] + rest else [[s[0]] + rest[0]] + rest[1..]
  }

  lemma {:induction false} SplitNoSeparator(s: string, sep: char)
    requires sep !in s
    ensures Split(s, sep) == [s]
    decreases |s|
  {
    if s != [] {
      SplitNoSeparator(s[1..], sep);
      assert [s[0]] + s[1..] == s;
    }
  }

  /** Joining a separator-free piece onto a string with the separator adds exactly that piece. */
  lemma {:induction false} SplitJoin(a: string, b: string, sep: char)
    requires sep !in b
    ensures Split(a + [sep] + b, sep) == Split(a, sep) + [b]
    decreases |a|
  {
    var s := a + [sep] + b;
    if a == [] {
      assert s[1..] == b;
      SplitNoSeparator(b, sep);
    } else {
      assert s[0] == a[0];
      assert s[1..] == a[1..] + [sep] + b;
      SplitJoin(a[1..], b, sep);
    }
  }

  /** A serialized pair splits at its `=` back into the encoded name and value. */
  lemma PairSplits(p: (string, string))
    ensures Split(SerializePair(p), '=') == [FormEncode(p.0), FormEncode(p.1)]
  {
    SplitJoin(FormEncode(p.0), FormEncode(p.1), '=');
    SplitNoSeparator(FormEncode(p.0), '=');
  }

  /** A non-empty serialized query splits at its `&`s into one serialized pair per
      appended pair, in append order: nothing is merged, dropped or reordered. */
  lemma {:induction false} SerializeSplits(pairs: seq<(string, string)>)
    requires pairs != []
    ensures Split(Serialize(pairs), '&') == EncodedPairs(pairs)
    decreases |pairs|
  {
    if |pairs| == 1 {
      SplitNoSeparator(SerializePair(pairs[0]), '&');
    } else {
      var prefix := pairs[..|pairs| - 1];
      var last := SerializePair(pairs[|pairs| - 1]);
      SerializeSplits(prefix);
      SplitJoin(Serialize(prefix), last, '&');
      assert EncodedPairs(pairs) == EncodedPairs(prefix) + [last];
    }
  }

  /** Each pair serialized on its own, in order. */
  function EncodedPairs(pairs: seq<(string, string)>): (r: seq<string>)
    ensures |r| == |pairs|
    ensures forall i :: 0 <= i < |pairs| ==> r[i] == SerializePair(pairs[i])
  {
    seq(|pairs|, i requires 0 <= i < |pairs| => SerializePair(pairs[i]))
  }

  /** A `URLSearchParams` object: the list of pairs appended to it. */
  class SearchParams {
    var pairs: seq<(string, string)>

    constructor()
      ensures pairs == []
    {
      pairs := [];
    }

    method Append(name: string, value: string)
      modifies this
      ensures pairs == old(pairs) + [(name, value)]
    {
      pairs := pairs + [(name, value)];
    }

    function ToString(): string
      reads this
    {
      Serialize(pairs)
    }
  }

  /** `url + (query ? "?" + query : "")`. */
  function WithQuery(url: string, pairs: seq<(string, string)>): string
  {
    url + (if Serialize(pairs) != "" then "?" + Serialize(pairs) else "")
  }

  /** With no pairs the URL is left exactly as it was; otherwise exactly one `?` joins it
      to the query. */
  lemma WithQueryShape(url: string, pairs: seq<(string, string)>)
    ensures pairs == [] ==> WithQuery(url, pairs) == url
    ensures pairs != [] ==> WithQuery(url, pairs) == url + "?" + Serialize(pairs)
  {
  }

  /** `process.env.REACT_APP_API_URL || 'http://localhost:8080'`. */
  function ApiBaseUrl(env: string): (base: string)
    ensures env != "" ==> base == env
    ensures base != ""
  {
    if env != "" then env else "http://localhost:8080"
  }

  const CURRENT_PATH: string := "/api/v1/telemetry/current"
  const TELEMETRY_PATH: string := "/api/v1/telemetry"
  const ANOMALIES_PATH: string := "/api/v1/telemetry/anomalies"
  const AGGREGATIONS_PATH: string := "/api/v1/telemetry/aggregations"
  const HEALTH_PATH: string := "/health"

  /** The parameters of `fetchTelemetry` and `fetchAnomalies`; an absent or empty time is
      "", an absent limit is 0 (both falsy). */
  datatype ListParams = ListParams(startTime: string, endTime: string, limit: int)

  /** The parameters of the three aggregation fetchers. */
  datatype AggregationParams = AggregationParams(startTime: string, endTime: string, bucketSize: string)

  /** The pairs of a list query: `start_time`, `end_time`, `limit`, in that order, each
      present only when truthy. */
  function ListQuery(p: ListParams): seq<(string, string)>
  {
    (if p.startTime != "" then [("start_time", p.startTime)] else [])
    + (if p.endTime != "" then [("end_time", p.endTime)] else [])
    + (if p.limit != 0 then [("limit", Text.IntToString(p.limit))] else [])
  }

  /** The pairs of an aggregation query: `bucket_size` takes the place of `limit`. */
  function AggregationQuery(p: AggregationParams): seq<(string, string)>
  {
    (if p.startTime != "" then [("start_time", p.startTime)] else [])
    + (if p.endTime != "" then [("end_time", p.endTime)] else [])
    + (if p.bucketSize != "" then [("bucket_size", p.bucketSize)] else [])
  }

  /** A limit of 0 is falsy and never sent; every name in a list query occurs once, in the fixed order. */
  lemma ListQueryFacts(p: ListParams)
    ensures p.limit == 0 ==> forall i :: 0 <= i < |ListQuery(p)| ==> ListQuery(p)[i].0 != "limit"
    ensures p.startTime != "" && p.endTime != "" && p.limit != 0 ==>
      ListQuery(p) == [("start_time", p.startTime), ("end_time", p.endTime), ("limit", Text.IntToString(p.limit))]
    ensures ListQuery(p) == [] <==> p.startTime == "" && p.endTime == "" && p.limit == 0
  {
  }

  /** Builds a list URL the way `fetchTelemetry` and `fetchAnomalies` do: conditional
      `append` calls on a fresh `URLSearchParams`, then "?" plus the query only when the
      query is non-empty. */
  method BuildListUrl(base: string, path: string, p: ListParams) returns (url: string)
    ensures url == WithQuery(base + path, ListQuery(p))
    ensures p.startTime == "" && p.endTime == "" && p.limit == 0 ==> url == base + path
  {
    var q := new SearchParams();
    if p.startTime != "" {
      q.Append("start_time", p.startTime);
    }
    if p.endTime != "" {
      q.Append("end_time", p.endTime);
    }
    if p.limit != 0 {
      q.Append("limit", Text.IntToString(p.limit));
    }
    assert q.pairs == ListQuery(p);
    var qs := q.ToString();
    url := base + path + (if qs != "" then "?" + qs else "");
  }

  /** The three aggregation fetchers: the same query, on the path suffix "", "/min" or "/max". */
  datatype AggregationVariant = Average | Minimum | Maximum

  function VariantSuffix(v: AggregationVariant): string
  {
    match v
    case Average => ""
    case Minimum => "/min"
    case Maximum => "/max"
  }

  method BuildAggregationUrl(base: string, variant: AggregationVariant, p: AggregationParams) returns (url: string)
    ensures url == WithQuery(base + AGGREGATIONS_PATH + VariantSuffix(variant), AggregationQuery(p))
    ensures p.startTime == "" && p.endTime == "" && p.bucketSize == "" ==> url == base + AGGREGATIONS_PATH + VariantSuffix(variant)
  {
    var q := new SearchParams();
    if p.startTime != "" {
      q.Append("start_time", p.startTime);
    }
    if p.endTime != "" {
      q.Append("end_time", p.endTime);
    }
    if p.bucketSize != "" {
      q.Append("bucket_size", p.bucketSize);
    }
    assert q.pairs == AggregationQuery(p);
    var qs := q.ToString();
    url := base + AGGREGATIONS_PATH + VariantSuffix(variant) + (if qs != "" then "?" + qs else "");
  }

  /** What `fetch` resolves to: the status line and the body, read as text or parsed as
      JSON (the parse may fail with a message). */
  datatype HttpResponse = HttpResponse(ok: bool, status: int, text: string, json: Result<Js.Value, string>)

  /** `handleResponse`: a non-ok response throws `API Error: <status> - <body text>`;
      an ok one yields the parsed body, or the parse error. */
  function HandleResponse(r: HttpResponse): (res: Result<Js.Value, string>)
    ensures res.Success? ==> r.ok && r.json == res
    ensures !r.ok ==> res == Failure("API Error: " + Text.IntToString(r.status) + " - " + r.text)
    ensures r.ok ==> res == r.json
  {
    if !r.ok then Failure("API Error: " + Text.IntToString(r.status) + " - " + r.text) else r.json
  }

  /** The result a fetcher resolves or rejects with for `url`: the transport error
      rethrown unchanged, or `handleResponse` of the response. */
  function Fetched(url: string, network: string -> Result<HttpResponse, string>): Result<Js.Value, string>
  {
    match network(url)
    case Failure(e) => Failure(e)
    case Success(response) => HandleResponse(response)
  }

  /** The body of every fetcher: request, handle, and rethrow whatever was caught. */
  method Fetch(url: string, network: string -> Result<HttpResponse, string>) returns (r: Result<Js.Value, string>)
    ensures r == Fetched(url, network)
    ensures network(url).Failure? ==> r == Failure(network(url).error)
  {
    var response := network(url);
    if response.Failure? {
      return Failure(response.error);
    }
    r := HandleResponse(response.value);
  }

  method FetchCurrentStatus(base: string, network: string -> Result<HttpResponse, string>) returns (r: Result<Js.Value, string>)
    ensures r == Fetched(base + CURRENT_PATH, network)
  {
    r := Fetch(base + CURRENT_PATH, network);
  }

  method FetchTelemetry(base: string, p: ListParams, network: string -> Result<HttpResponse, string>) returns (r: Result<Js.Value, string>)
    ensures r == Fetched(WithQuery(base + TELEMETRY_PATH, ListQuery(p)), network)
  {
    var url := BuildListUrl(base, TELEMETRY_PATH, p);
    r := Fetch(url, network);
  }

  method FetchAnomalies(base: string, p: ListParams, network: string -> Result<HttpResponse, string>) returns (r: Result<Js.Value, string>)
    ensures r == Fetched(WithQuery(base + ANOMALIES_PATH, ListQuery(p)), network)
  {
    var url := BuildListUrl(base, ANOMALIES_PATH, p);
    r := Fetch(url, network);
  }

  /** `fetchAggregations`, `fetchMinAggregations` and `fetchMaxAggregations`. */
  method FetchAggregations(base: string, variant: AggregationVariant, p: AggregationParams, network: string -> Result<HttpResponse, string>)
    returns (r: Result<Js.Value, string>)
    ensures r == Fetched(WithQuery(base + AGGREGATIONS_PATH + VariantSuffix(variant), AggregationQuery(p)), network)
  {
    var url := BuildAggregationUrl(base, variant, p);
    r := Fetch(url, network);
  }

  method HealthCheck(base: string, network: string -> Result<HttpResponse, string>) returns (r: Result<Js.Value, string>)
    ensures r == Fetched(base + HEALTH_PATH, network)
  {
    r := Fetch(base + HEALTH_PATH, network);
  }
}
