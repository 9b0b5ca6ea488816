# fastHAR-api, modelled in Dafny

fastHAR-api captures a browser network trace (a HAR document) for a URL by
running a headless-browser capture script. It re-issues every recorded
request to attach live response data and appends the result to a per-URL
history of snapshots, each tagged with a `ref`. From that history it serves
per-resource-type statistics and chart series. This project models the
service's core, `app.js`:

- `Capture`: how `phantomHAR` builds the capture arguments and turns the
  process's exit into an error string.
- `Payload`: how `fetchView` takes the commit sha and repository URL from a
  webhook payload.
- `Enrich`: `processResponses`. Each entry's writes are modelled as they
  happen, in any completion order. `Promise.all` fans in all or nothing, and
  entries are merged back by index.
- `Store`: the snapshot store as a class holding one append-only list per key
  (`rpush`, `lrange`).
- `Fetch`: the `fetchView` pipeline, from the capture to the append.
- `Stats`: `getStats`.
- `History`: the `historyView` and `statsView` scans by ref.
- `Charts`: the `chartsView` pivot and its final filter.

Some behaviour of the code is worth stating plainly:

- The resource type of an entry is read from `content._type` (app.js:80, 297).
- `resourceTypes` lists `total` itself (app.js:277). An entry whose `_type`
  is `total` is therefore credited to the "total" bucket twice. For request
  counts, the other buckets add up to `totals.total` exactly when no entry
  of `_type` `total` is counted (`Stats.TotalsAddUpIff`). For sizes and
  times, they add up exactly when such entries contribute 0 in total
  (`Stats.BucketsAddUpIff`).
- A lookup by ref keeps overwriting its result, so it returns the last
  matching snapshot (app.js:223-230, 338-350). The request parameter calls a
  ref a "unique identifier" (app.js:126, 202, 386), but nothing enforces
  that.
- A type chosen with `resource` is still dropped from the chart when it was
  never requested (app.js:473).
- `chartsView` with a `ref` passes that ref on to `statsView`, which then
  returns one object or `{}`. `data.forEach` throws on that value, so
  `Charts.ChartsView` answers `Crashed` exactly when a ref is given. The
  sample request at app.js:369 passes a ref to a chart all the same.
- If an entry has no `response` (or no `response.content`) and its re-fetch
  succeeds, its request callback throws, so that promise never settles. On a
  request error the callback rejects before touching the entry
  (app.js:72-73). Either way nothing is stored, and the model treats the
  entry as not resolving.

## Model

| member | source | states |
|---|---|---|
| Har.ParseType | app.js:298 | a string is recognised as a bucket only when it is that bucket's name |
| Har.ParseName | app.js:265-279 | every bucket name in `resourceTypes` is recognised as that bucket |
| Har.ResourceTypesComplete | app.js:265-279 | every bucket is in the `resourceTypes` list |
| Har.Position | app.js:265-279 | each bucket has a position in `resourceTypes` holding that bucket |
| Har.PositionOfListed | app.js:265-279 | positions are in one-to-one correspondence with list entries |
| Har.AllListed | app.js:265-279 | every bucket appears in `resourceTypes` |
| Har.ResourceTypesDistinct | app.js:265-279 | `resourceTypes` lists no bucket twice |
| Capture.NatText | app.js:43 | the decimal text of a natural number is non-empty digits without a leading zero |
| Capture.IntText | app.js:43 | `'' + code` is a minus sign exactly for negative codes, then digits |
| Capture.NatTextRoundTrip | app.js:43 | reading the decimal text of `n` back gives `n` |
| Capture.IntTextRoundTrip | app.js:43 | reading the text of an exit code back gives the code |
| Capture.NegativeTextRoundTrip | app.js:43 | the text of a negative code reads back as that code |
| Capture.ExitError | app.js:38-47 | exit 0 passes stderr on unchanged; a non-zero exit or a kill reports `stderr: ` plus the output, or says which script exited with which code; the error is empty iff the exit was 0 and stderr was empty |
| Capture.ExitMessageNamesCode | app.js:43 | the message for a silent non-zero exit starts with `phantomjs <script> exited: ` and ends in text that reads back as the code |
| Payload.CommitOf | app.js:143-156 | sha and repository URL are set together; they are set iff the payload is given, parses, and has truthy `after`, `repository` and `repository.url`, and then they are those values |
| Enrich.RequestOptions | app.js:61-69 | the options carry the request's method and URL; the header map has exactly the names in the list, and each name maps to the value of the last header with that name |
| Enrich.Applied | app.js:72-83 | a failed request or an entry without response changes nothing; otherwise status and bodySize are set; with content, the size is set to bodySize and the text to the body only for a kept type; request and timings never change |
| Enrich.ProcessResponses | app.js:52-101 | whatever the completion order, each entry ends up with its own request's writes at its own index; the callback is called iff every request succeeds on an entry that has content |
| Enrich.Settle | app.js:71-85 | one callback writes its request's result into its own entry only, and its promise resolves with that entry exactly when the entry resolves |
| Enrich.SettleAll | app.js:58-89 | once every callback has run, in any completion order, each entry holds its own writes; a promise rejected iff some entry does not resolve; each resolved value is its entry |
| Enrich.MergeByIndex | app.js:91-95 | every entry is replaced by the value its own promise resolved with |
| Enrich.EnrichedEntries | app.js:91-95 | enrichment keeps every entry at its position: same length, same request and timings at each index, and a response (and content) exactly where the capture recorded one |
| Fetch.FetchView | app.js:136-181 | a snapshot is appended iff the capture reported no error (the message naming `args[0]` of `CaptureArgs`) and every re-fetch resolved; the new snapshot (`Snapshot`) holds the `EnrichedEntries`, the ref from `RefOrNow` and the commit from `CommitOf`, and goes at the end of the URL's list; no other list changes, and nothing changes when the run fails |
| Store.Store.RPush | app.js:170 | read back with `LRange` (`lrange`, app.js:214), `rpush` appends at the end of the key's list; other lists are unchanged, and every old list remains a prefix of its new one |
| History.HistoryView | app.js:208-238 | without a ref, every snapshot is returned in stored order; with a ref, `{}` is returned iff no snapshot has it, and otherwise the last snapshot that has it |
| History.StatsView | app.js:317-362 | without a ref, the stats of every snapshot in stored order (`SnapshotStats`); with a ref, `{}` iff no snapshot has it, otherwise the stats of the last one that has it |
| History.SnapshotStatsWellFormed | app.js:338-350 | one stats record per snapshot, tagged with that snapshot's ref, each keyed by every listed type |
| History.AppendedSnapshotIsFound | app.js:170 | a snapshot just appended is the one a lookup by its ref settles on, and the only one |
| Stats.Classify | app.js:297-300 | an entry goes into the bucket its `_type` names, and into Other when `_type` is missing or unlisted |
| Stats.ClassifyName | app.js:297-300 | a `_type` naming a bucket is classified into that bucket |
| Stats.StatsOfWellFormed | app.js:281-286 | `getStats` keys all three maps by every listed type |
| Stats.ZeroStats | app.js:282-286 | every listed type, Total included, starts at 0 in all three maps |
| Stats.TalliesAreStatsOf | app.js:281-315 | maps that hold every listed bucket, each equal to `Bucket` (the sum of the entries' `Credit`), are the maps of `StatsOf` |
| Stats.TallyStep | app.js:302-311 | adding an entry's amount to its own bucket and to Total extends the tally by that entry |
| Stats.TallySkip | app.js:293-295 | an entry without response or content leaves the tally unchanged |
| Stats.GetStats | app.js:281-315 | all three maps are keyed by every listed type, and the result is `StatsOf`: each bucket is `Bucket`, the sum of the `Credit` of the entries that have content |
| Stats.WithContent | app.js:293-295 | the counted entries are those with both response and content |
| Stats.TypedTotal | app.js:297-311 | the entries whose `_type` is `total` |
| Stats.CountingSumIsLength | app.js:307 | summing a count of 1 per entry gives the number of entries |
| Stats.TotalBucketCountsTwice | app.js:305-311 | the "total" bucket holds every counted entry once, plus each entry of `_type` `total` a second time |
| Stats.AmountSumAppend | app.js:292-312 | sums over entries add up over concatenation |
| Stats.TotalRequestCount | app.js:307-311 | `totals.total` is the number of counted entries plus the number of `_type` `total` entries; with none of the latter, it is the number of counted entries |
| Stats.TypeBucketsAreTheOtherTypes | app.js:265-279 | the buckets other than Total are exactly the twelve other listed types, each once |
| Stats.BucketSumStep | app.js:292-312 | summing buckets over a document is summing them over all but its last entry, plus that entry's credits |
| Stats.CreditSumOfEntry | app.js:297-308 | over distinct buckets without Total, an entry is credited once, to its own type |
| Stats.TypeBucketsCredit | app.js:297-308 | over the buckets other than Total, an entry is credited its amount unless its `_type` is `total` |
| Stats.ContentSumsStep | app.js:292-312 | one more entry adds its amount to the counted sum, and to the `total`-typed sum when its `_type` is `total` |
| Stats.TypeBucketsSum | app.js:297-311 | the buckets other than Total hold the counted amount minus what the `_type` `total` entries bring |
| Stats.ZeroBuckets | app.js:282-286 | an empty document puts 0 in every bucket |
| Stats.BucketsAddUpIff | app.js:297-311 | the non-total buckets plus twice the `_type` `total` amount equal the "total" bucket; they equal it iff that amount is 0 |
| Stats.TotalsAddUpIff | app.js:297-311 | the per-type request counts add up to `totals.total` iff no counted entry has `_type` `total` |
| Stats.TypedTotalEmptyIff | app.js:297-300 | no entry has `_type` `total` iff no counted entry is classified as Total |
| Stats.CountsNonNegative | app.js:307-311 | request counts are never negative |
| Charts.ChartTypes | app.js:415-418 | no type is charted twice, and a type is charted iff no `resource` is given or it is the requested one |
| Charts.AddTotals | app.js:450-452 | each tracked counter grows by the snapshot's count for its type; no counter is added or removed |
| Charts.PushValues | app.js:454-464 | each charted type's row gets exactly one more value, the snapshot's value for that type |
| Charts.PushKey | app.js:454-464 | the value of one key is pushed onto the row of that type, and onto no other row |
| Charts.IndexOf | app.js:460 | `types.indexOf(t)` is the first position holding `t` |
| Charts.ZeroCounters | app.js:437-443 | exactly the charted types get a counter, each starting at 0 |
| Charts.FilterRows | app.js:469-474 | the remaining rows are those of types that are not excluded and were requested over the history, in charted order |
| Charts.Pivot | app.js:447-465 | after every snapshot: one label per snapshot, each row holding the type's series, each counter the type's lifetime request count |
| Charts.PivotSnapshot | app.js:447-465 | one snapshot adds its ref to the labels, its counts to the counters and one value to every row |
| Charts.PivotStep | app.js:447-465 | extending the history by one snapshot adds its ref, its value and its count |
| Charts.Project | app.js:426-474 | the chart is `ChartOf`: the labels are `Refs`, and the rows `KeptRows` hold each kept type's `Series`, where a type is kept when it is not excluded and its `Lifetime` count is not 0 |
| Charts.ChartsView | app.js:408-478 | with a ref given the view crashes; otherwise it replies with the chart of the stats of every stored snapshot |
| Charts.SeriesAligned | app.js:454-463 | a row has one value per snapshot, value `i` from snapshot `i` |
| Charts.KeptTypesIff | app.js:469-474 | a type keeps its row iff it is charted, not excluded, and requested at least once over the history |
| Charts.KeptRowsFollowTotals | app.js:450-474 | the surviving row types depend on the request counts only, whichever statistic is charted; each row holds its type's series |
| Charts.ChartShape | app.js:408-478 | of `ChartOf`: one label per snapshot in order (`Refs`); every row is as long as the labels, with values from each snapshot; a row exists iff its type (`TypesOf`) is charted, not excluded and was requested; with `resource` it is the only possible row |
| Charts.LifetimeOfSteadyType | app.js:450-452 | a type requested `c` times in each snapshot is requested `c` times the snapshot count overall |
| Charts.CssChartExample | app.js:426-474 | three snapshots, each with one 100-byte css request, chart to labels `r1, r2, r3` and the single row `[css, 100, 100, 100]` |

## Left out

- The capture process itself: spawning `phantomjs` with what `CaptureArgs` builds, collecting its output, and the console logging. A run is given as its exit, its stderr, and its stdout already parsed into a HAR document.
- Scheduling: `setTimeout`, the early `{success: true}` reply, and the concurrency of the re-fetches. The live responses are a parameter, and so is the order they complete in, which may be any.
- The HTTP requests themselves. Each one is given as its outcome: status, numeric `content-length` and body, or an error. `RequestOptions` builds what would be sent.
- `JSON.parse` and `JSON.stringify`. Parsing the payload is a parameter (the parse result, or none when it throws). Snapshots are stored as values, not as JSON text.
- Payload.CommitOf: `payload` is taken to be a string. A request body parsed as JSON (server.js) can make it an object, on which `JSON.parse` throws and app.js:151-154 reads `after` and `repository.url` from the object itself; that case is not modelled.
- `encodeURIComponent`: the store key is a parameter. So is the current time that stands in for a missing ref.
- Enrich.Applied: `parseInt` of a missing or malformed `content-length` gives NaN. The model takes an integer. In the service, `JSON.stringify` (app.js:170) stores such a NaN `bodySize` as `null`.
- Stats.GetStats: sizes and times are integers. Floating point is not modelled. A stored `null` size adds 0 under `+=` (app.js:305), so such a size counts as 0; the model has no `null` size.
- Charts.AddTotals: the service also adds counts for types that are not charted. Those become NaN and are never read, so only the charted types' counters are modelled.
- Charts.ChartsView: `resource`, `exclude` and the statistic are enum values. Request validation (app.js:389-404) only admits the listed names. The validation layer in server.js is not part of this model.
- Store errors: the `err` branches of `lrange` and `rpush` (app.js:215-218, 171-173, 324-332) are not modelled.
- chartsView's `{}` error reply (app.js:421-424) is not modelled either.
- The store's backend: app.js calls `db.redis`, but db.js exports a LevelDB handle instead. The store is modelled as an abstract per-key append-only list.
- Routing and the HTTP server: `server.get`/`server.post`, `listen`, and the JSON replies.
