# Satellite telemetry pipeline — a Dafny model

The system watches a simulated satellite. It has four programs:

- **Generator.** Once a second it builds a 32-byte CCSDS space packet and sends it over UDP. The packet has a 6-byte primary header, a 10-byte secondary header and a payload of four big-endian float32 readings. Every fifth packet is anomalous.
- **Ingestion service.** It receives the datagrams, parses the payload, stores a row in the `telemetry` table, and updates Prometheus gauges and counters. It also counts a reading as an anomaly when it falls outside the fixed bands.
- **API.** An HTTP service that builds parameterised SQL over the telemetry and anomaly tables. It serves JSON lists, time-bucket aggregations (full, min-only and max-only), the current status and an anomaly count.
- **Dashboard.** A React page that fetches its data with `axios` directly: the current status, up to 1000 telemetry rows, the three aggregations and up to 100 anomalies, with ISO start and end times. It filters, pages, classifies and charts the results, and raises a notification for every anomaly younger than a minute.
- **Client gateway.** `api.js` is a small `fetch`-based client library for the same endpoints. The page itself does not use it.

An integration script calls each endpoint, retrying up to three times, and validates the shape of every answer.

Where the code and the system's design documentation disagree, the model follows the code. The places where the model itself is narrower than the code are listed under "## Left out". In four places the code does something other than the design documentation describes:

- When a dashboard refresh fails, the data already shown stays on screen. The code only sets the error (`App.js:417-419`); it does not clear the data.
- Nothing guards against stale data. If two refresh batches overlap, whichever finishes last wins.
- Notifications are not de-duplicated. Delivering the same fresh anomaly twice notifies twice.
- A reading exactly equal to a positive lower bound is classed "warning", not "ok". The "ok" band is tightened to `min*1.1 … max*0.9`.

Each program part is one Dafny module:

| Module | Program part |
|---|---|
| `Ccsds` | packet codec (integer newtypes for Go's `uint8/16/32/64`) |
| `Float32` | IEEE-754 single decoding (finite / infinite / NaN) |
| `Generator` | generator |
| `Ingestion` | ingestion |
| `Link` | generator-to-ingestion round trip |
| `Sql` | SQL fragments and placeholders |
| `Records` | JSON records |
| `Api` | HTTP handlers |
| `Gateway` | `api.js` (client library) |
| `MetricClassifier` | status classes |
| `Views` | filtering, charts and paging |
| `Dashboard` | React state as classes |
| `Js` | JavaScript values |
| `Integration` | validators and retry loop |
| `ApiContract` | API answers against the validators |

Effects enter the model as parameters:

- the database (a function from query to rows);
- the network (a function from URL to response);
- the clock;
- the random payload source;
- whether a UDP write or an insert succeeds.

## Model

| member | source | states |
|---|---|---|
| MetricClassifier.GetMetricClass | telemetry-frontend/src/App.js:103-108 | "alert" exactly when the value lies outside [min, max]; "ok" exactly when it lies inside [min, max] and inside the tightened band [min·1.1, max·0.9]; "warning" exactly when it lies inside [min, max] but outside the tightened band |
| MetricClassifier.EdgesAreNotAlert | telemetry-frontend/src/App.js:103-108 | both edges of a band are never "alert" |
| MetricClassifier.PositiveLowerEdgeWarns | telemetry-frontend/src/App.js:103-108 | with a positive minimum, a value equal to the minimum is "warning" |
| MetricClassifier.NonPositiveBandNeverWarns | telemetry-frontend/src/App.js:103-108 | for a band entirely at or below zero the classifier never answers "warning" (the signal band) |
| MetricClassifier.VitalBands | telemetry-frontend/src/App.js:542-599 | the "ok" range of each vital card: temperature 22–31.5, battery 44–90, altitude 440–900, signal −80…−20; the signal card never warns |
| MetricClassifier.GetStatusClass | telemetry-frontend/src/App.js:100-101 | NORMAL, WARNING and ANOMALY map to `status-normal`, `status-warning` and `status-anomaly`; a CSS class is produced exactly for those three |
| MetricClassifier.StatusClassesDistinct | telemetry-frontend/src/App.js:100-101 | the three statuses get three different classes |
| Views.KeepWhereAppend | telemetry-frontend/src/App.js:272-282 | filtering distributes over concatenation, so it keeps the list order |
| Views.KeepWhereMembership | telemetry-frontend/src/App.js:272-282 | an item survives filtering iff it is a present (non-null) element that satisfies the predicate |
| Views.KeepAllIsPresent | telemetry-frontend/src/App.js:322-329 | a predicate true everywhere keeps exactly the non-null elements, in order |
| Views.EmptySearchKeepsAll | telemetry-frontend/src/App.js:272-276 | an empty search term keeps every non-null row |
| Views.SearchMembership | telemetry-frontend/src/App.js:272-282 | with a term, a row is shown iff it is present and its packet id or subsystem id text contains the term |
| Views.ZeroIdsNeverMatch | telemetry-frontend/src/App.js:277-280 | a row whose ids are both 0 (falsy) never matches a non-empty search |
| Views.AnomalyFilterMembership | telemetry-frontend/src/App.js:322-329 | an anomaly is listed iff it is present and either no type is selected or its type equals the selection |
| Views.NoTypeSelectedKeepsAll | telemetry-frontend/src/App.js:322-329 | the "All" choice keeps every non-null anomaly |
| Views.Take | telemetry-frontend/src/App.js:747 | `slice(0, n)` yields a prefix of length min(n, length) |
| Views.ChartRowsBounded | telemetry-frontend/src/App.js:110-130 | the telemetry chart plots at most 50 rows and the aggregation chart at most 24, each a non-null input row with a timestamp/bucket |
| Views.PageCount | telemetry-frontend/src/App.js:331-334 | the page count is the ceiling of length / 10 |
| Views.PageSlice | telemetry-frontend/src/App.js:866-870 | a page holds at most 10 items, is non-empty iff the page index is below the page count, and item i is element page·10+i |
| Views.PagesCoverList | telemetry-frontend/src/App.js:866-870 | every element appears on page i/10 at offset i%10 |
| Dashboard.ArrayOrEmpty | telemetry-frontend/src/App.js:411-416 | a response that is not an array is stored as the empty list |
| Dashboard.FreshnessExamples | telemetry-frontend/src/App.js:440-459 | anomalies 30 s old are notified; 60 s and 90 s old are not |
| Dashboard.PollInterval | telemetry-frontend/src/App.js:384-387 | polling is on iff auto-refresh is on |
| Dashboard.DashboardState.VisibleAnomalies | telemetry-frontend/src/App.js:866-870 | at most 10 anomalies are shown, and some are shown whenever the filtered list is non-empty |
| Dashboard.DashboardState.constructor | telemetry-frontend/src/App.js:252-269 | initial state: empty lists, no status, no error, loading, page 0 |
| Dashboard.DashboardState.BeginBatch | telemetry-frontend/src/App.js:392-393 | a batch sets loading, clears the error and leaves every loaded list as it was |
| Dashboard.DashboardState.NotifyFresh | telemetry-frontend/src/App.js:440-459 | one notification is appended per fresh anomaly, in list order |
| Dashboard.DashboardState.CompleteBatch | telemetry-frontend/src/App.js:390-423 | success replaces all six datasets, notifies the fresh anomalies and resets the page; failure sets the error and keeps all data; loading ends either way |
| Dashboard.DashboardState.ApplyResponses | telemetry-frontend/src/App.js:411-416 | the six setters, the anomaly notifier and the page reset that follow a successful batch |
| Dashboard.DashboardState.ApplyLiveStatus | telemetry-frontend/src/App.js:435-437 | a live status, when present, replaces the current status; otherwise it stays |
| Dashboard.DashboardState.SelectAnomalyType | telemetry-frontend/src/App.js:711-722 | choosing a type stores it; the page goes back to 0 exactly when the choice differs from the current one, which recomputes the filtered list (line 462) |
| Dashboard.DashboardState.SetSearchTerm | telemetry-frontend/src/App.js:703-705 | the search box stores the term |
| Dashboard.DashboardState.ResetFilters | telemetry-frontend/src/App.js:725-732 | "Last 24 Hours" clears the search term and the anomaly type, so both tables show every non-null row; the page resets exactly when the type was set |
| Dashboard.DashboardState.PreviousPage | telemetry-frontend/src/App.js:915-918 | the page decreases by one, never below 0 |
| Dashboard.DashboardState.NextPage | telemetry-frontend/src/App.js:926-932 | the page increases by one, never past the last page |
| Dashboard.RealTimeData.constructor | telemetry-frontend/src/App.js:71-74 | no data, no error, loading, timer set to the requested interval |
| Dashboard.RealTimeData.BeginFetch | telemetry-frontend/src/App.js:76-79 | a fetch clears the error and sets loading |
| Dashboard.RealTimeData.CompleteFetch | telemetry-frontend/src/App.js:76-87 | success stores the data; failure keeps the old data and records the message; loading ends |
| Dashboard.RealTimeData.ChangeInterval | telemetry-frontend/src/App.js:89-94 | a new interval restarts polling with an immediate fetch, keeping the data |
| Dashboard.RepeatedDeliveryNotifiesTwice | telemetry-frontend/src/App.js:440-459 | a fresh anomaly delivered in two batches is notified twice |
| Dashboard.StaleBatchWins | telemetry-frontend/src/App.js:390-423 | of two overlapping batches, the one that completes last decides what is shown |
| Dashboard.FailureKeepsLoadedData | telemetry-frontend/src/App.js:417-419 | a failed batch after a good one keeps the good data and shows the error |
| Gateway.FormEncode | telemetry-frontend/src/api.js:24-38 | URL form encoding never emits `&` or `=` and never shortens its input |
| Gateway.SerializePair | telemetry-frontend/src/api.js:38 | a `name=value` pair is non-empty and contains no `&` |
| Gateway.Serialize | telemetry-frontend/src/api.js:38 | the query string is empty iff there are no parameters |
| Gateway.PairSplits | telemetry-frontend/src/api.js:38 | splitting a pair at `=` gives back the encoded name and value |
| Gateway.SerializeSplits | telemetry-frontend/src/api.js:38 | splitting the query string at `&` gives back each encoded pair, in order |
| Gateway.SearchParams.constructor | telemetry-frontend/src/api.js:26 | a new parameter list is empty |
| Gateway.SearchParams.Append | telemetry-frontend/src/api.js:28-36 | `append` adds the pair at the end |
| Gateway.WithQueryShape | telemetry-frontend/src/api.js:38 | the URL is the bare path with no parameters, and `path?query` otherwise |
| Gateway.ApiBaseUrl | telemetry-frontend/src/api.js:1 | the configured base URL wins when set; there is always a non-empty base |
| Gateway.ListQueryFacts | telemetry-frontend/src/api.js:28-36 | a zero limit is not sent; all three parameters are sent when set; the list is empty iff none is set |
| Gateway.BuildListUrl | telemetry-frontend/src/api.js:24-38 | the URL is path plus the query string of the set filters, and the bare path when none is set |
| Gateway.BuildAggregationUrl | telemetry-frontend/src/api.js:72-86 | the same for the three aggregation endpoints |
| Gateway.HandleResponse | telemetry-frontend/src/api.js:4-10 | a non-OK response fails with "API Error: status - text"; an OK one yields its JSON |
| Gateway.Fetch | telemetry-frontend/src/api.js:13-21 | a network failure propagates as the failure; otherwise the result is the handled response |
| Gateway.FetchCurrentStatus | telemetry-frontend/src/api.js:13-21 | fetches `/api/v1/telemetry/current` |
| Gateway.FetchTelemetry | telemetry-frontend/src/api.js:24-45 | fetches the telemetry list URL for the filters |
| Gateway.FetchAnomalies | telemetry-frontend/src/api.js:48-69 | fetches the anomaly list URL for the filters |
| Gateway.FetchAggregations | telemetry-frontend/src/api.js:72-141 | fetches the full, min or max aggregation URL |
| Gateway.HealthCheck | telemetry-frontend/src/api.js:144-152 | fetches `/health` |
| Generator.PacketId | telemetry-generator/main.go:80-83 | the packet id word is 0x0801 (version 0, type 0, secondary header, APID 1) |
| Generator.SeqCtrlFields | telemetry-generator/main.go:86 | the top two bits are the sequence flags 3, the low 14 bits are the counter mod 2^14, so the field repeats every 16384 packets |
| Generator.PacketDataLength | telemetry-generator/main.go:92-93 | the length field is 25 (10 + 16 − 1) |
| Generator.Increment | telemetry-generator/main.go:72 | the uint16 counter increments and wraps from 65535 to 0 |
| Generator.AnomalyCadenceAtWrap | telemetry-generator/main.go:89 | anomalous packets are never adjacent, except across the wrap 65535 → 0 |
| Generator.UnixTimestamp | telemetry-generator/main.go:103 | the timestamp is Unix seconds when they fit in 64 bits |
| Generator.PacketBuffer.constructor | telemetry-generator/main.go:77 | the buffer starts empty |
| Generator.PacketBuffer.Write | telemetry-generator/main.go:108-110 | each write appends its bytes |
| Generator.CreateTelemetryPacket | telemetry-generator/main.go:76-113 | the packet is the encoding of the three headers and the payload chosen by the anomaly cadence, and is 32 bytes long |
| Generator.PacketFixedBytes | telemetry-generator/main.go:95-112 | bytes 0–1 are 08 01, bytes 4–5 are 00 19, bytes 14–15 are 00 01 |
| Generator.PacketFields | telemetry-generator/main.go:95-112 | reading a packet back gives its sequence word, its timestamp and its payload |
| Generator.PacketSeqField | telemetry-generator/main.go:86 | bytes 2–3 hold the sequence control word |
| Generator.TelemetryGenerator.constructor | telemetry-generator/main.go:55 | the counter starts at 0 and nothing has been sent |
| Generator.TelemetryGenerator.Tick | telemetry-generator/main.go:56-73 | a successful send transmits the packet for the current count, then increments it; a failed send changes nothing |
| Generator.TelemetryGenerator.Run | telemetry-generator/main.go:56-73 | after a run, the counter is the start plus the successes (mod 2^16) and the transmitted packets are those of the successful iterations, each built from the clock reading and the payload drawn at its own tick |
| Generator.SuccessTicks | telemetry-generator/main.go:56-73 | the ticks whose write succeeded, in increasing order, one per success |
| Generator.CountFromWraps | telemetry-generator/main.go:72 | n increments from `start` give (start + n) mod 65536 |
| Generator.RunStep | telemetry-generator/main.go:56-73 | one loop iteration extends the counter and the transmitted list exactly as Tick does with that tick's clock reading and payload draw |
| Generator.TransmittedCounts | telemetry-generator/main.go:56-73 | one packet is sent per successful write, and the k-th carries the sequence word of count start + k |
| Ccsds.Be16RoundTrip | telemetry-generator/main.go:108 | big-endian 16-bit encoding is undone by reading it back |
| Ccsds.Read16RoundTrip | telemetry-ingestion/main.go:185-189 | every 2 bytes are the encoding of what is read from them |
| Ccsds.Be32RoundTrip | telemetry-generator/main.go:110 | big-endian 32-bit round trip |
| Ccsds.Read32RoundTrip | telemetry-ingestion/main.go:197-201 | every 4 bytes are the encoding of what is read from them |
| Ccsds.Be64RoundTrip | telemetry-generator/main.go:109 | big-endian 64-bit round trip |
| Ccsds.Read64RoundTrip | telemetry-ingestion/main.go:191-195 | every 8 bytes are the encoding of what is read from them |
| Ccsds.PrimaryRoundTrip | telemetry-ingestion/main.go:185-189 | decoding an encoded primary header gives it back |
| Ccsds.SecondaryRoundTrip | telemetry-ingestion/main.go:191-195 | decoding an encoded secondary header gives it back |
| Ccsds.PayloadRoundTrip | telemetry-ingestion/main.go:197-201 | decoding an encoded payload gives it back |
| Ccsds.PayloadBytesRoundTrip | telemetry-ingestion/main.go:197-201 | every 16 bytes are the encoding of the payload read from them |
| Ccsds.EncodePacket | telemetry-generator/main.go:108-112 | a packet is 32 bytes: primary header, secondary header, payload, in that order |
| Float32.Decode | telemetry-ingestion/main.go:167-172 | NaN and infinity are recognised by an all-ones exponent; the sign bit gives the sign of a finite value |
| Float32.OutsideBand | telemetry-ingestion/main.go:167-172 | "below the low bound or above the high bound" is the same as lying outside the band; NaN lies in neither |
| Float32.DecodeBandEdges | telemetry-ingestion/main.go:167-172 | the words 0x42C80000 and 0xC2B40000 are exactly 100 and −90 |
| Float32.DecodeZeros | telemetry-ingestion/main.go:167-172 | both zero words decode to 0 |
| Float32.DecodeNonFinite | telemetry-ingestion/main.go:167-172 | the standard infinity and NaN words decode as such |
| Ingestion.ReadFullAt | telemetry-ingestion/main.go:183-201 | a read never moves past the end of the data |
| Ingestion.ParseOutcomes | telemetry-ingestion/main.go:178-204 | parsing succeeds iff there are ≥ 32 bytes; <16 gives "too short"; exactly 16 gives EOF on the payload; 17–31 give unexpected EOF; success yields bytes 16–31 decoded |
| Ingestion.ParseDependsOnlyOnPayloadBytes | telemetry-ingestion/main.go:183-203 | header contents and trailing bytes do not affect the parsed payload |
| Ingestion.Reader.constructor | telemetry-ingestion/main.go:183 | the reader starts at offset 0 |
| Ingestion.Reader.ReadFull | telemetry-ingestion/main.go:186 | a read fills exactly n bytes or fails with EOF / unexpected EOF, advancing as `io.ReadFull` does |
| Ingestion.ParseCCSDSPacket | telemetry-ingestion/main.go:178-204 | the three sequential reads compute exactly the parse specification |
| Ingestion.OutOfBandMeaning | telemetry-ingestion/main.go:167-172 | a packet counts as an anomaly iff some reading lies outside its band (0–100, 20–100, 300–550, −90…−40) |
| Ingestion.BandEdgesAndNaN | telemetry-ingestion/main.go:167-172 | values on the band edges, and all-NaN readings, are not anomalies |
| Ingestion.RowFor | telemetry-ingestion/main.go:216-225 | the stored row carries the value 1 as packet id, sequence word and subsystem id (the header values are not stored); the readings are the decoded payload words |
| Ingestion.IngestionService.constructor | telemetry-ingestion/main.go:39-64 | counters at 0, gauges at 0, empty table |
| Ingestion.IngestionService.StoreTelemetry | telemetry-ingestion/main.go:206-228 | a successful insert appends one row and touches no metric |
| Ingestion.IngestionService.ProcessPacket | telemetry-ingestion/main.go:146-176 | a parse or store failure changes no metric; otherwise one row is stored, the gauges show the readings, the packet counter grows by one and the anomaly counter by one exactly when out of band |
| Ingestion.Receiver.constructor | telemetry-ingestion/main.go:88 | one 1024-byte receive buffer |
| Ingestion.Receiver.ReadFrom | telemetry-ingestion/main.go:93 | a datagram overwrites the buffer prefix (truncated to 1024) and nothing else |
| Ingestion.Receiver.ReceiveTwoAsWritten | telemetry-ingestion/main.go:92-102 | with one shared buffer, a handler scheduled after the next datagram parses the second packet, not its own |
| Ingestion.Receiver.ReceiveTwo | telemetry-ingestion/main.go:92-102 | with a copy per datagram, each handler parses its own packet |
| Ingestion.SharedBufferLosesPacket | telemetry-ingestion/main.go:101 | two different packets for which the shared buffer yields the second payload twice |
| Link.GeneratedPacketParses | telemetry-ingestion/main.go:178-204 | every packet the generator builds parses back to its payload, whatever follows it |
| Link.TransmittedParses | telemetry-generator/main.go:56-73 | the k-th packet of a generator run parses back to the payload drawn at the k-th successful tick for count start + k, whatever readings each tick draws |
| Sql.Atoi | telemetry-api/main.go:194 | the limit, as `strconv.Atoi` reads it with the error ignored, always lies in the int64 range |
| Sql.AtoiRoundTrip | telemetry-api/main.go:194 | parsing the decimal rendering of any int64 gives it back |
| Sql.AtoiRejects | telemetry-api/main.go:194 | a string with a non-digit after a digit run that fits in 64 bits (or an empty one) is read as 0, as with the ignored error |
| Sql.AtoiSaturates | telemetry-api/main.go:194 | a digit run beyond 2^64−1 is read as the int64 bound of its sign, whatever follows it (the range error wins over a later non-digit) |
| Sql.RenderAppend | telemetry-api/main.go:177-196 | appending clauses appends their SQL text |
| Sql.Bounds | telemetry-api/main.go:177-187 | one bound per non-empty start/end time |
| Sql.NumberedParams | telemetry-api/main.go:177-187 | the bound clauses use consecutive placeholders from the given number |
| Sql.AppendTimeBounds | telemetry-api/main.go:177-187 | the bounds append their clauses and arguments and keep the argument count equal to the number of arguments |
| Sql.BuildListQuery | telemetry-api/main.go:166-196 | the telemetry and anomaly list builders compute the list query |
| Sql.ListQueryParams | telemetry-api/main.go:174-196 | the placeholders are exactly $1 … $n for n arguments, in order |
| Sql.BoundsThenOrderingParams | telemetry-api/main.go:177-193 | the bounds followed by the ordering and limit use $1 … $n |
| Sql.ListQueryOrder | telemetry-api/main.go:189-196 | ORDER BY follows the bounds, and LIMIT uses the last placeholder |
| Sql.OrderingParams | telemetry-api/main.go:189-193 | the ordering has a placeholder only when a limit is given |
| Sql.ListQueryArgs | telemetry-api/main.go:174-196 | the arguments are start time, end time and limit, each only when given, in that order |
| Sql.BuildAggregationQuery | telemetry-api/main.go:360-399 | the three aggregation builders compute the aggregation query |
| Sql.AggregationQueryParams | telemetry-api/main.go:381-394 | the bucket width is $1 and the first argument; the bounds continue from $2; placeholders are $1 … $n |
| Sql.BuildAnomalyCountQuery | telemetry-api/main.go:587-600 | the count builder computes the count query |
| Sql.AnomalyCountQueryParams | telemetry-api/main.go:587-600 | the count query binds only the bounds as $1 … $n and has no ordering or limit |
| Sql.NumberedClauses | telemetry-api/main.go:177-187 | bound clauses hold only time conditions and placeholders |
| Records.TelemetryJson | telemetry-api/main.go:19-32 | a telemetry record is a JSON object; `anomaly_type` appears iff it is set |
| Records.AnomalyJson | telemetry-api/main.go:34-46 | an anomaly record is a JSON object; `acknowledged_at` appears iff it is set |
| Records.AggregationJson | telemetry-api/main.go:48-65 | every aggregation record is an object with a `bucket` |
| Records.CurrentStatusJson | telemetry-api/main.go:67-72 | the current status is a JSON object |
| Api.QueryParam | telemetry-api/main.go:162-164 | a missing or empty query parameter takes the default |
| Api.ErrorBody | telemetry-api/main.go:198-204 | an error answer carries `error` and `details` |
| Api.ScanRows | telemetry-api/main.go:207-221 | the scan loop collects the rows that scan, skipping those that fail |
| Api.ScannedAppend | telemetry-api/main.go:209-221 | collecting distributes over concatenation (order kept) |
| Api.ScannedRows | telemetry-api/main.go:209-221 | no more rows than scanned; all rows when none fails; a row is kept iff it scanned |
| Api.ArrayJson | telemetry-api/main.go:207-231 | a made slice is a JSON array of the encoded rows, possibly empty |
| Api.NilSliceJson | telemetry-api/main.go:337-352 | a nil slice encodes as `null` exactly when empty |
| Api.GetTelemetry | telemetry-api/main.go:161-232 | the handler computes the telemetry response |
| Api.TelemetryLimit | telemetry-api/main.go:164-196 | the limit is always bound last; it defaults to 100, and a non-numeric limit becomes 0 |
| Api.TelemetryResponseShape | telemetry-api/main.go:198-231 | status 200 iff the query and iteration succeed, and then the body is an array with one element per scanned row; otherwise 500 with an error object |
| Api.GetAnomaliesAsWritten | telemetry-api/main.go:291-353 | the handler as written (nil slice) |
| Api.GetAnomalies | telemetry-api/main.go:291-353 | the corrected handler (empty slice) |
| Api.ScanAggregation | telemetry-api/main.go:478-497 | `rows.Scan` into the handler's own struct: it succeeds exactly when the row has that struct's column count, and the row it yields has the endpoint's shape and the row's bucket, subsystem and counts |
| Api.AggregationScans | telemetry-api/main.go:410-428 | one scan outcome per fetched row; a row scans exactly when the driver delivered it and it has the struct's column count |
| Api.AggregationRowsOfKind | telemetry-api/main.go:554-580 | every row an aggregation handler serves has the shape of that handler's struct (full, min-only or max-only) |
| Api.GetAggregationsAsWritten | telemetry-api/main.go:355-429 | the three aggregation handlers as written (nil slice) |
| Api.GetAggregations | telemetry-api/main.go:355-429 | the corrected aggregation handlers |
| Api.AggregationBucketDefault | telemetry-api/main.go:358 | the bucket width is bound first and defaults to "1 hour" |
| Api.StatusRule | telemetry-api/main.go:274-279 | ANOMALY iff the latest reading is anomalous; WARNING iff it is not but the anomaly count is positive (the handler counts the last 24 hours); otherwise NORMAL |
| Api.GetCurrentStatus | telemetry-api/main.go:234-289 | a failed latest-row query gives 500; a failed count query counts as 0; otherwise 200 with the latest row, the count and the derived status |
| Api.GetAnomalyCount | telemetry-api/main.go:583-612 | 500 with details on failure; otherwise `{"count": n}` |
| Js.HasProperty | integration-test.js:53 | `in` throws a TypeError on a non-object and otherwise tests membership |
| Integration.CheckFields | integration-test.js:52-56 | the field loop computes the required-fields check |
| Integration.RequireFieldsMeaning | integration-test.js:52-56 | an object passes iff it has every field; otherwise the first missing field is reported; a non-object throws TypeError |
| Integration.ValidateTelemetryData | integration-test.js:39-60 | the validator computes the telemetry check |
| Integration.TelemetryDataMeaning | integration-test.js:39-60 | an array passes iff it is empty or its first record has the six fields; a non-array fails |
| Integration.ValidateCurrentStatus | integration-test.js:62-72 | the validator computes the current-status check |
| Integration.AnomaliesCheck | integration-test.js:74-80 | anomalies pass iff the data is an array |
| Integration.ValidateAnomalies | integration-test.js:74-80 | the validator computes the anomalies check |
| Integration.AggregationFields | integration-test.js:89 | five required fields, the first being `bucket` |
| Integration.ValidateAggregations | integration-test.js:82-137 | the three validators compute the aggregation check |
| Integration.AggregationsEdgeCases | integration-test.js:82-137 | an empty array passes; `null` fails with "Invalid … data format" |
| Integration.TestEndpoint | integration-test.js:15-37 | the retry loop computes the attempt specification |
| Integration.RetryFacts | integration-test.js:15-37 | success iff one of the three attempts succeeds, returning the first success after one 2 s pause per earlier failure; on failure the third error is rethrown after 4 s |
| ApiContract.TelemetryRecordFields | telemetry-api/main.go:19-32 | each telemetry record has every field the integration script requires |
| ApiContract.TelemetryResponsePasses | integration-test.js:39-60 | every 200 answer of the telemetry handler passes its validator |
| ApiContract.CurrentStatusPasses | integration-test.js:62-72 | every current-status answer passes its validator |
| ApiContract.EmptyAnomaliesRejected | telemetry-api/main.go:337-352 | with no rows, the handler as written answers `null`, which the validator rejects |
| ApiContract.AnomaliesResponsePasses | integration-test.js:74-80 | every 200 answer of the corrected anomaly handler passes |
| ApiContract.EmptyAggregationsRejected | telemetry-api/main.go:410-428 | with no rows, the aggregation handlers as written answer `null`, which the validators reject |
| ApiContract.AggregationRecordFields | integration-test.js:82-137 | each aggregation record of the right kind has the five required fields |
| ApiContract.RowsOfKindPass | integration-test.js:82-137 | an array of rows of an endpoint's own shape passes that endpoint's validator |
| ApiContract.AggregationsResponsePasses | integration-test.js:82-137 | every 200 answer of the corrected aggregation handlers passes its validator, whatever rows the database returns |

## Left out

- React rendering, JSX, styling and the theme toggle are left out; only the state the components keep is modelled.
- The CSV export and the `toast` pop-ups are not modelled.
- Timing is not modelled: `setInterval`, the 1 s and 5 s sleeps of the generator, and the interleaving of `Promise.all` with the polling hook. Two overlapping batches are modelled by their completion order only.
- `date-fns` formatting and `toFixed` are not modelled. Chart labels are not modelled beyond row selection.
- Float rounding is not modelled. Numbers in records and the classifier are exact reals, so `min*1.1` is exact.
- Readings on the API side are `real`, so NaN and ±Inf cannot occur there, although the ingestion service stores them (`Ingestion.BandEdgesAndNaN`). In Go, `c.JSON` of such a row fails with `json.UnsupportedValueError`, and Fiber's default error handler answers 500 with a plain-text body. A timestamp outside the years 0–9999 fails the same way. This applies to every handler that encodes rows (`telemetry-api/main.go:231, 288, 352, 428, 504, 580`).
- Api.TelemetryResponseShape: its "200 exactly when the query and the iteration succeed" holds only for rows whose readings are finite and whose timestamps are encodable. The model excludes the other rows by typing readings as `real`.
- Api.GetCurrentStatus: answers 200 whenever the latest row scans. In Go, a latest row with a non-finite reading or an unencodable timestamp gives a plain-text 500 instead. The model excludes such rows by typing readings as `real`.
- Gateway.ListQueryFacts: the limit is modelled as an integer. A string limit is sent verbatim, and `"0"` counts as truthy. A fractional limit is sent as, say, `2.5`, which the API reads as 0. Neither case is modelled.
- The database is a function from query to rows. SQL semantics are not modelled: filtering, `time_bucket`, grouping, the 24-hour count window.
- Fixed SQL text is a named clause, and its whitespace is folded.
- Fiber routing, CORS and the health and metrics HTTP servers are not modelled.
- Goroutine scheduling is modelled only as the two-datagram orders of `Receiver`.
- Prometheus metrics are plain fields.
- `generateTelemetryPayload` and `randomFloat` are the parameter `payloadFor`. In `Generator.TelemetryGenerator.Run`, `payloadFor(i)` gives the readings drawn at tick i, so every tick, retries included, may draw different readings.
- `initDatabase`, environment lookup and log text are not modelled.
- `runIntegrationTests`, the repository's unit tests and `App.test.js` are not modelled.
- The axios 10 s timeout is not modelled. It is part of the `get` parameter's failures.
- The dashboard's own `axios` request builders (`App.js:336-380`: URLs, the 1000 and 100 limits, ISO times) are not modelled. Their answers enter `Dashboard` as `BatchResponses`.
- MetricClassifier.GetStatusClass: in JavaScript a key inherited from `Object.prototype` (such as `"constructor"`) yields a truthy non-string value from the lookup; the model yields `""` for every string other than the three statuses, which are the only ones the API sends.
- The aggregation handlers' column scan is modelled by column count only; a type conversion failure of one column is a driver-side scan failure in `Rows`.
- Gateway.Fetch: a thrown exception's exact message text is not modelled; failures carry a message string.
- Js.HasProperty: `in` on an array is modelled by its index keys and `length` only; inherited properties are not modelled.
- Ingestion.RowFor: the stored row's timestamp is the `now` parameter, and the database's own `id` and `created_at` are left to the database.

## Findings

| source | as written | input that shows it | evidently intended | confidence | as-written member | corrected member |
|---|---|---|---|---|---|---|
| telemetry-ingestion/main.go:88-101 | one receive buffer is shared by every `go processPacket(buffer[:n])` goroutine, so the next `ReadFrom` can overwrite a packet before its goroutine parses it | two 32-byte datagrams, all zeros and then all zeros but byte 16 = 0x42, with the first handler scheduled after the second read: both handlers parse the second payload, and the two payloads differ | each goroutine parses a private copy of its datagram | not executed | Ingestion.Receiver.ReceiveTwoAsWritten, Ingestion.SharedBufferLosesPacket | Ingestion.Receiver.ReceiveTwo |
| telemetry-api/main.go:337-352 | `var anomalies []Anomaly` (and `var aggregations` at 410, 489, 565) stays nil when no row matches, and `c.JSON` encodes it as `null` | an empty time range: the API answers `null` and the integration validators throw "Invalid anomalies data format" | an empty JSON array, as `getTelemetry` produces with `make(..., 0)` | not executed | Api.GetAnomaliesAsWritten, ApiContract.EmptyAnomaliesRejected, Api.GetAggregationsAsWritten, ApiContract.EmptyAggregationsRejected | Api.GetAnomalies, ApiContract.AnomaliesResponsePasses, Api.GetAggregations, ApiContract.AggregationsResponsePasses |
