# har-capture, modelled in Dafny

har-capture drives a headless Chrome through the DevTools protocol, records
every network request and response of one page load, and returns the result
as an HTTP Archive (HAR 1.2) document, with optional screenshots at the
page's lifecycle stages and the time to first byte of the document request.
A small service wraps a capture as an asynchronous operation: an in-memory
store of operations and a worker that runs the capture, uploads its
artefacts and moves the operation from pending to running to complete or
failed.

This project models the sequential bookkeeping of that engine and service,
with the browser, the network, storage and the clock turned into inputs:

- `Results` (results.dfy): `Option`, `Result` and a pass/fail `Outcome`.
- `Network` (network.dfy): the protocol events the listener sees — a request
  about to be sent, a response received, a lifecycle event — and the
  resource timing Chrome reports.
- `HarTypes` (hartypes.dfy): the HAR 1.2 document shape (log, pages,
  entries, timings).
- `Events` (events.dfy): the request store that correlates a response with
  its pending request, at most once; a class over a `map` field.
- `Collector` (collector.dfy): the 64-slot event buffer, the once-only done
  signal and the drain that splits the buffer into pages and entries; classes
  over a `seq` buffer and a done flag.
- `Har` (har.dfy): HAR assembly — timing phases with the −1 "absent"
  sentinel, the total of the positive phases, header expansion, the redirect
  lookup, entries and the log.
- `Capture` (capture.dfy): option defaults, the listener's
  event routing, the screenshot collector's sort into lifecycle order, time
  to first byte, and one whole run with its two timeout flags.
- `Operations` (operations.dfy): the operation record, the store's `update`
  and the three marks.
- `Worker` (worker.dfy): the job — mark running, capture, upload the HAR and
  each screenshot in order, mark complete or failed — and the object names
  of the uploads.

Every operation with a loop or with state is a `method` proved against a
specification function (`SumPositive`, `Expand`, `TTFBOf`, `PagesOf`/
`EntriesOf`, `Replay`, `UploadOutcome`, `Updated`), and the properties the
source promises are proved about those functions as lemmas.

## Model

| member | source | states |
|---|---|---|
| Events.Correlation | internal/capture/events.go:50-62 | a response pairs with a request exactly when its id is pending, and the pair holds that pending request and this response |
| Events.Remaining | internal/capture/events.go:54-61 | correlation removes exactly the response's id and keeps every other pending request as it was |
| Events.SecondCorrelationFails | internal/capture/events.go:54-59 | after a response has been correlated, a second response with the same id finds nothing and changes nothing |
| Events.CorrelateAllConsumes | internal/capture/events.go:50-62 | over any sequence of responses the pending set only shrinks, and every request removed has become exactly one entry |
| Events.CorrelateAllPairsPending | internal/capture/events.go:50-62 | every entry produced pairs a request that was pending with a response carrying its id |
| Events.CorrelateAllAtMostOnce | internal/capture/events.go:59 | no two entries produced share a request id: each request is paired at most once |
| Events.RequestStore.constructor | internal/capture/events.go:36-40 | a new store has no pending requests |
| Events.RequestStore.AddRequest | internal/capture/events.go:42-46 | the request is stored under its id, replacing any earlier one, and every other id is unchanged |
| Events.RequestStore.Correlate | internal/capture/events.go:50-62 | returns the pair when the id is pending and removes exactly that id; otherwise returns nothing and leaves the map unchanged; never adds an id |
| Collector.DrainKeepsMembers | internal/capture/collector.go:65-72 | the pages drained are exactly the page items buffered and the entries exactly the entry items |
| Collector.DrainCount | internal/capture/collector.go:51-72 | pages plus entries never exceed the items buffered, with equality when nothing else was buffered |
| Collector.DrainAppend | internal/capture/collector.go:58-60 | draining a buffer in two parts gives the pages and entries of the first part followed by those of the second: buffer order is kept |
| Collector.OnceCloser.constructor | internal/capture/collector.go:32 | a new closer is open |
| Collector.OnceCloser.Close | internal/capture/capture.go:328-333 | the first call closes and marks done; a later call changes nothing |
| Collector.Collector.constructor | internal/capture/collector.go:27-34 | a new collector has an empty buffer and done is not signalled |
| Collector.Collector.Send | internal/capture/collector.go:38-40 | with room in the 64-slot buffer, the item is appended at the back |
| Collector.Collector.MarkDone | internal/capture/collector.go:42-45 | done is signalled afterwards, and a repeated call leaves the signalled state as it was |
| Collector.Collector.Accumulate | internal/capture/collector.go:65-72 | a page is appended to the pages, an entry to the entries, and anything else is dropped |
| Collector.Collector.Wait | internal/capture/collector.go:51-63 | the buffer is emptied whichever branch fired, the result is the pages and entries of the whole buffer in order, and timedOut holds exactly when the deadline branch fired |
| Har.PhaseOrBlocked | internal/capture/har.go:112-117 | −1 when either end is negative, otherwise the phase's length from start to end |
| Har.BuildTimings | internal/capture/har.go:83-110 | without timing, send, wait and receive are −1 and the rest zero; with timing, blocked and receive are −1, DNS, connect, SSL and send are their phases, and wait runs from send end to headers end when both are present, else −1 |
| Har.SumPositiveBounds | internal/capture/har.go:119-127 | the total is never negative, is at least every positive phase, and is zero when no phase is positive |
| Har.SumPositiveSkipsAbsent | internal/capture/har.go:119-127 | an absent (−1) phase adds nothing to the total |
| Har.TotalTime | internal/capture/har.go:119-127 | the loop's total is the sum of the strictly positive phases among blocked, DNS, connect, send, wait and receive (SSL excluded), and is never negative |
| Har.TotalOfBuiltTimings | internal/capture/har.go:77-127 | an entry without timing has total time zero; with timing, the total is the sum of the positive DNS, connect, send and wait phases |
| Har.NamedValuePairs | internal/capture/har.go:141-147 | a header contributes pairs under its own name only: one per value of a list, otherwise one |
| Har.ExpandPerHeader | internal/capture/har.go:138-150 | in the expansion of all headers, the pairs named after a header are exactly that header's pairs, and a name that is no header has none |
| Har.ExpandAnyOrder | internal/capture/har.go:138-150 | for every iteration order that visits each header exactly once, the pairs carrying a name are that header's values in order, and none when no header has that name |
| Har.HeadersToHAR | internal/capture/har.go:138-150 | the loop visits every header exactly once, in some order, and emits that header's pairs in turn; whatever the order, the pairs carrying a header's name are exactly its values in their own order, and no pair carries a name that is not a header |
| Har.RedirectURL | internal/capture/har.go:129-136 | the value under "Location" or "location" when either is present (either one when both are), "" otherwise; no other capitalisation is looked up |
| Har.BuildEntry | internal/capture/har.go:43-81 | method, URL, status, protocol, MIME type and page reference are copied, header and body sizes are −1, headers are expanded, timings built and time is their positive total |
| Har.AssembleHAR | internal/capture/har.go:13-41 | version "1.2", browser "Google Chrome" with the given version, creator "har-capture" 0.1.0, the pages as given and one entry built from each completed entry, in order |
| Capture.LifecycleOrderStrict | internal/capture/capture.go:32-36 | load ranks before first contentful paint, which ranks before network idle, and no two stages share a rank |
| Capture.InsertByStage | internal/capture/capture.go:252-258 | inserting into a stage-sorted sequence keeps it sorted, grows it by one and adds exactly the new screenshot |
| Capture.InsertByStagePermutes | internal/capture/capture.go:252-258 | insertion neither loses nor duplicates a screenshot |
| Capture.ScreenshotCollector.constructor | internal/capture/capture.go:158 | a new screenshot collector holds no screenshots |
| Capture.ScreenshotCollector.Capture | internal/capture/capture.go:232-248 | a successful attempt appends a screenshot of that stage; a failed one adds nothing |
| Capture.ScreenshotCollector.Wait | internal/capture/capture.go:252-258 | the results are sorted in place into lifecycle order and returned, a permutation of what was collected |
| Capture.ResolveOptions | internal/capture/capture.go:102-126 | an empty URL is rejected with "capture: URL must not be empty"; otherwise zero timeouts become 10 s and 30 s, an empty browser version "unknown", a zero viewport dimension makes both 1920×1080, and every other value passes through |
| Capture.ResolveOptionsIdempotent | internal/capture/capture.go:106-126 | defaults already filled in are kept as they are |
| Capture.EntryTTFB | internal/capture/capture.go:269-273 | an entry's first-byte time is its headers-start offset converted to a duration, truncated, and zero without timing or with a negative offset |
| Capture.TTFBOf | internal/capture/capture.go:264-276 | the first-byte time of the first document entry, zero when there is none; later document entries are never consulted |
| Capture.ExtractTTFB | internal/capture/capture.go:264-276 | the scan with its early returns computes exactly that first-document time |
| Capture.ReplayBufferGrows | internal/capture/capture.go:160-181 | the listener only ever appends to the collector: what it buffered after some events is a prefix of what it buffered after more |
| Capture.ReplayAccounts | internal/capture/capture.go:160-181 | the listener buffers exactly one page per document request, at most one entry per response, and nothing the drain would drop |
| Capture.UnmatchedResponseIgnored | internal/capture/capture.go:305-312 | a response whose id is not pending changes nothing at all |
| Capture.OnRequest | internal/capture/capture.go:280-301 | the request is always registered under its id with page reference "page_" + id, and a page titled with its URL is sent exactly for a document request |
| Capture.OnResponse | internal/capture/capture.go:305-312 | an entry is sent exactly when the response correlates, and the store loses exactly that id |
| Capture.Listen | internal/capture/capture.go:160-181 | each event moves the store, buffer, screenshots and done flag as the listener step says: requests and responses are routed, load and first contentful paint take a screenshot when enabled, network idle takes one and signals done |
| Capture.Deliver | internal/capture/capture.go:153-181 | feeding the events to the listener one by one, from a fresh store, collector and screenshot collector, ends in exactly the state the listener step replayed over the whole stream gives |
| Capture.ReplayNoShots | internal/capture/capture.go:166-178 | with screenshots off, no event makes the listener take a screenshot |
| Capture.ReplayDone | internal/capture/capture.go:174-178 | completion is signalled exactly when a network-idle event has been seen, however many items were sent before it |
| Capture.OverfullListenerMissesIdle | internal/capture/collector.go:38-40 | when every network-idle event comes after the listener has sent more than the channel's 64 slots, no prefix of the events the listener can get through has signalled completion, although the whole stream has |
| Capture.IntendedFallback | internal/capture/capture.go:203-207 | the closing screenshot is a network-idle screenshot exactly when screenshots are on, the run timed out and the attempt succeeds |
| Capture.FallbackAsWritten | internal/capture/capture.go:129-151 | the closing screenshot runs on the tab context, which the total deadline cancels: after the collector's deadline there is none, otherwise it is the intended one |
| Capture.FallbackLostAfterDeadline | internal/capture/capture.go:203-207 | a run reaching the total deadline with screenshots on ends without the closing screenshot the browser could have taken |
| Capture.Capture | internal/capture/capture.go:85-220 | an empty URL and a failed navigation are errors; otherwise timedOut is navigation-timed-out or collector-timed-out, the HAR holds every page and entry the listener buffered in order, the TTFB is that of the first document entry, and the screenshots are the ones taken, sorted, plus the closing screenshot as intended (see Findings: the source loses it after the total deadline), and no screenshots at all when screenshots are off |
| Operations.Apply | internal/operation/operation.go:109-129 | running sets only the status; complete sets status, TTFB, timed-out flag and artefacts; failed sets status and error; id, URL and timestamps are untouched |
| Operations.Updated | internal/operation/operation.go:131-142 | the store keeps its ids, every other operation is unchanged, and a known operation gets the change and a fresh updatedAt |
| Operations.RunningThenTerminalAdvances | internal/operation/operation.go:109-129 | marking a pending operation running and then complete or failed moves its status strictly forward |
| Operations.MemoryStore.constructor | internal/operation/operation.go:76-78 | a new store holds no operations |
| Operations.MemoryStore.Create | internal/operation/operation.go:80-94 | a new pending operation with the given URL is inserted under a fresh id, its creation and update times being two successive clock readings, and existing operations are unchanged |
| Operations.MemoryStore.Get | internal/operation/operation.go:96-107 | a known id gives a copy of its operation, an unknown one the "not found" error; the store is not changed |
| Operations.MemoryStore.Update | internal/operation/operation.go:131-142 | an unknown id is "not found" and changes nothing; a known one gets the change and a fresh updatedAt, and nothing else changes |
| Operations.MemoryStore.MarkRunning | internal/operation/operation.go:109-113 | only the status (to running) and updatedAt change |
| Operations.MemoryStore.MarkComplete | internal/operation/operation.go:115-122 | status complete with exactly the given TTFB, timed-out flag and artefacts |
| Operations.MemoryStore.MarkFailed | internal/operation/operation.go:124-129 | status failed with the error's message stored |
| Worker.DecimalRoundTrip | internal/operation/worker.go:87 | a number prints as at least one decimal digit, two below a hundred, and reads back as itself |
| Worker.TwoDigitsRoundTrip | internal/operation/worker.go:77 | zero-padded two-digit numbering reads back as the number and is exactly two wide below a hundred |
| Worker.ObjectPathLayout | internal/operation/worker.go:99-102 | every object name starts with "operations/<date>/<operation id>/" and ends with the file name |
| Worker.UploadShotsOk | internal/operation/worker.go:75-94 | the screenshot uploads all succeed exactly when every single upload does |
| Worker.UploadShotsShape | internal/operation/worker.go:75-94 | on success there is one artefact per screenshot, in order, named "screenshot_" + stage and carrying its upload's signed URL and expiry |
| Worker.UploadShotsFailure | internal/operation/worker.go:85-88 | a failure names the first failing screenshot: all earlier uploads succeeded and that one returned the error |
| Worker.UploadOutcomeShape | internal/operation/worker.go:50-97 | success means 1 + the number of screenshots artefacts, "har" first and each screenshot's next in order; a HAR failure is returned as is; a screenshot failure is "screenshot N: " + the first failing upload's error |
| Worker.UploadScreenshots | internal/operation/worker.go:75-96 | the loop uploads the screenshots in order, stops at the first failure, and issues exactly the requests up to that failure |
| Worker.UploadArtefacts | internal/operation/worker.go:50-97 | the HAR is uploaded first as "capture.har", then each screenshot; the result is the upload outcome, and uploads stop at the first failure, which is the last request issued |
| Worker.Verdict | internal/operation/worker.go:33-45 | a capture error fails the operation with "capture: " + error, an upload error with "upload: " + error, and success completes it with the capture's TTFB and timed-out flag and the uploaded artefacts |
| Worker.Run | internal/operation/worker.go:27-46 | MarkRunning is always called first; if it fails there is no capture, no upload and no further store call; otherwise the capture runs, uploads are issued only after a successful capture and are exactly those of uploadArtefacts, exactly one terminal mark follows, the verdict, and the store changes only by those two updates |
| Worker.RunAdvancesPending | internal/operation/worker.go:27-46 | seen through a run, a pending operation goes to running and then to complete or failed, completing exactly when capture and every upload succeeded, and no other operation changes |

## Left out

- Browser driving: allocating Chrome, the tab context, `ListenTarget`, navigation, viewport emulation and taking the screenshots are foreign calls. The events the listener receives, how navigation ended, which branch of the wait fired and how each screenshot attempt ends are inputs of `Capture.Capture`.
- Concurrency: goroutines, the mutexes, the `WaitGroup` and the channels are not modelled. Each screenshot attempt appends its result at once; events are delivered before the wait returns, and events arriving after the drain are not modelled.
- `Capture.Capture`: requires that the listener never buffers more than 64 items. Nothing reads the channel until the wait, and the listener runs synchronously, so a 65th send blocks the listener: network idle is then never signalled and the run ends at the total deadline with whatever the drain finds. That behaviour is stated by `Capture.OverfullListenerMissesIdle` (see Findings), not by `Capture.Capture`.
- `Collector.Collector.Send`: requires room in the buffer; the blocking send on a full channel is not modelled.
- The `select` in the collector's wait is an input: the done branch is only offered once done was signalled.
- `isTimeoutError` is abstracted: navigation ends normally, with a deadline or cancellation error, or with another error. `NavTimedOut` stands for every error `isTimeoutError` accepts: navigation's own deadline, the total deadline and a cancelled caller context alike.
- float64 timings are `real` milliseconds; IEEE rounding is not modelled. `time.Duration` is an integer number of nanoseconds and the float-to-duration conversion truncates (the value converted is never negative).
- Time formatting: the request's wall time is kept as its already formatted RFC 3339 string.
- Map iteration order in `headersToHAR` and `redirectURL` is unspecified: `Har.HeadersToHAR` returns the key order it used, and `Har.RedirectURL` may return either value when both "Location" and "location" are present.
- `fmt.Sprint` of a header value that is not a list of strings is taken as the value's printed text; a list is printed as its elements separated by spaces inside brackets.
- `Capture.ScreenshotCollector.Wait`: `sort.Slice` is not stable, so only "sorted by stage and a permutation" is claimed, not the order among screenshots of one stage; the model's insertion sort is one admissible order.
- JSON marshalling of the HAR, and its error path, are not modelled: the HAR is uploaded as a value.
- `Operations.MemoryStore.Create`: the two `time.Now()` readings are independent parameters; that the second is not earlier than the first is not stated.
- `Worker.UploadArtefacts`: `objectPath` reads the UTC date on each call, once for the HAR and once per screenshot; the model passes one `date` to every upload of a run, so it does not capture a run crossing UTC midnight, whose artefacts the source files under two date directories.
- `uuid.New()`, `time.Now()` and the date in `objectPath` are parameters; `Operations.MemoryStore.Create` requires the id to be fresh, as a random UUID is taken to be.
- `Operations.MemoryStore.Create`: the Go method returns a pointer to the stored record, so later updates are visible through it; the model returns the record as a value.
- The `%q` quoting in the "not found" message is modelled as plain double quotes around the id, without escaping.
- The uploader is a function of the upload request that may fail; the storage backends (GCS, disk) are not part of this model.
- The HTTP server, the command-line interface and file output are not part of this model.

## Findings

| source | as written | input that shows it | evidently intended | confidence | as-written member | corrected member |
|---|---|---|---|---|---|---|
| internal/capture/collector.go:30-40 | the 64-slot result channel is read only by the wait's drain loop, after its select has fired on done or on the deadline, and the listener sends synchronously, so the 65th page or entry blocks it before later events are handled | 65 document requests followed by the network-idle lifecycle event | every event reaches the collector and network idle ends the wait, however many requests the page makes | not executed; medium | Capture.OverfullListenerMissesIdle | Capture.ReplayDone |
| internal/capture/capture.go:203-207 | the closing screenshot runs on the tab context, a descendant of the total-deadline context, so after the collector's deadline it runs on a cancelled context and fails | screenshots on, the wait ends by the total deadline, the page still renderable | a screenshot of whatever state the page reached, as the comment above the call says | not executed; medium | Capture.FallbackAsWritten | Capture.IntendedFallback |
