/** The capture session (internal/capture/capture.go): option defaults, the
    protocol listener's routing, screenshot ordering, time to first byte
    and the way one run ends. The browser itself is an input: the events it
    delivers, how navigation ended, which branch of the wait fired and
    whether each screenshot attempt succeeded. */
module Capture {
  import opened Results
  import opened Network
  import opened Events
  import opened Collector
  import opened HarTypes
  import Har

  // ---------------------------------------------------------------------
  // Lifecycle stages and screenshots

  datatype LifecycleStage = Load | FirstContentfulPaint | NetworkIdle

  /** The protocol's name of each stage. */
  function StageName(s: LifecycleStage): string
  {
    match s
    case Load => "load"
    case FirstContentfulPaint => "firstContentfulPaint"
    case NetworkIdle => "networkIdle"
  }

  /** Canonical stage order: load, then first contentful paint, then
      network idle. */
  function LifecycleOrder(s: LifecycleStage): nat
  {
    match s
    case Load => 0
    case FirstContentfulPaint => 1
    case NetworkIdle => 2
  }

  /** The canonical order is strict: every stage has its own rank. */
  lemma LifecycleOrderStrict()
    ensures LifecycleOrder(Load) < LifecycleOrder(FirstContentfulPaint) < LifecycleOrder(NetworkIdle)
    ensures forall s, t :: LifecycleOrder(s) == LifecycleOrder(t) ==> s == t
  {
  }

  datatype Screenshot = Screenshot(stage: LifecycleStage, capturedAt: int, png: seq<bv8>)

  /** How one screenshot attempt ended; a failed attempt leaves no trace. */
  datatype ShotAttempt = Taken(capturedAt: int, png: seq<bv8>) | ShotFailed

  ghost predicate SortedByStage(shots: seq<Screenshot>)
  {
    forall i, j :: 0 <= i < j < |shots| ==>
      LifecycleOrder(shots[i].stage) <= LifecycleOrder(shots[j].stage)
  }

  /** `sorted` with `s` inserted before the first screenshot of a later stage. */
  function InsertByStage(sorted: seq<Screenshot>, s: Screenshot): (r: seq<Screenshot>)
    requires SortedByStage(sorted)
    ensures SortedByStage(r)
    ensures |r| == |sorted| + 1
    ensures forall x :: x in r <==> x in sorted || x == s
  {
    if sorted == [] || LifecycleOrder(s.stage) <= LifecycleOrder(sorted[0].stage) then [s] + sorted
    else
      var head := sorted[0];
      var rest := InsertByStage(sorted[1..], s);
      assert sorted == [head] + sorted[1..];
      var r := [head] + rest;
      assert forall i, j :: 0 <= i < j < |r| ==> LifecycleOrder(r[i].stage) <= LifecycleOrder(r[j].stage) by {
        forall i, j | 0 <= i < j < |r|
          ensures LifecycleOrder(r[i].stage) <= LifecycleOrder(r[j].stage)
        {
          assert r[j] == rest[j - 1];
          if i > 0 {
            assert r[i] == rest[i - 1];
          } else if r[j] != s {
            assert r[j] in rest;
            assert r[j] in sorted[1..];
            var k :| 0 <= k < |sorted[1..]| && sorted[1..][k] == r[j];
            assert sorted[k + 1] == r[j];
          }
        }
      }
      r
  }

  /** Insertion neither loses nor duplicates a screenshot. */
  lemma {:induction false} InsertByStagePermutes(sorted: seq<Screenshot>, s: Screenshot)
    requires SortedByStage(sorted)
    ensures multiset(InsertByStage(sorted, s)) == multiset(sorted) + multiset{s}
  {
    if sorted != [] && LifecycleOrder(s.stage) > LifecycleOrder(sorted[0].stage) {
      InsertByStagePermutes(sorted[1..], s);
      assert sorted == [sorted[0]] + sorted[1..];
    }
  }

  /** Screenshots taken concurrently at lifecycle stages; each finished
      capture appends its result. */
  class ScreenshotCollector {
    var results: seq<Screenshot>

    constructor ()
      ensures results == []
    {
      results := [];
    }

    /** One screenshot attempt at `stage`; a failure is swallowed. */
    method Capture(stage: LifecycleStage, attempt: ShotAttempt)
      modifies this
      ensures results == old(results) + ShotOf(stage, attempt)
    {
      match attempt {
        case Taken(at, png) => results := results + [Screenshot(stage, at, png)];
        case ShotFailed =>
      }
    }

    /** Sorts the results in place into canonical stage order and returns
        them: a permutation of what was collected. */
    method Wait() returns (shots: seq<Screenshot>)
      modifies this
      ensures SortedByStage(shots)
      ensures multiset(shots) == multiset(old(results))
      ensures results == shots
    {
      var collected := results;
      var sorted: seq<Screenshot> := [];
      for i := 0 to |collected|
        invariant SortedByStage(sorted)
        invariant multiset(sorted) == multiset(collected[..i])
      {
        assert collected[..i + 1] == collected[..i] + [collected[i]];
        InsertByStagePermutes(sorted, collected[i]);
        sorted := InsertByStage(sorted, collected[i]);
      }
      assert collected[..|collected|] == collected;
      results := sorted;
      shots := sorted;
    }
  }

  /** The screenshot a successful attempt at `stage` contributes. */
  function ShotOf(stage: LifecycleStage, attempt: ShotAttempt): seq<Screenshot>
  {
    match attempt
    case Taken(at, png) => [Screenshot(stage, at, png)]
    case ShotFailed => []
  }

  // ---------------------------------------------------------------------
  // Options

  /** time.Duration: nanoseconds. */
  type Duration = int

  const Second: Duration := 1_000_000_000
  const Millisecond: Duration := 1_000_000
  const DefaultNavigationTimeout: Duration := 10 * Second
  const DefaultTotalTimeout: Duration := 30 * Second
  const DefaultBrowserVersion: string := "unknown"
  const DefaultViewportWidth: int := 1920
  const DefaultViewportHeight: int := 1080
  const EmptyURLError: string := "capture: URL must not be empty"

  datatype Options = Options(
    url: string,
    navigationTimeout: Duration,
    totalTimeout: Duration,
    browserVersion: string,
    screenshots: bool,
    viewportWidth: int,
    viewportHeight: int)

  /** The options a run actually uses once the defaults are filled in. */
  datatype Settings = Settings(
    navigationTimeout: Duration,
    totalTimeout: Duration,
    browserVersion: string,
    viewportWidth: int,
    viewportHeight: int)

  /** Rejects an empty URL, then fills in a default for every zero value.
      A zero in either viewport dimension replaces both. */
  function ResolveOptions(opts: Options): (r: Result<Settings>)
    ensures r.Err? <==> opts.url == ""
    ensures r.Err? ==> r.message == EmptyURLError
    ensures r.Ok? ==>
      && r.value.navigationTimeout != 0 && r.value.totalTimeout != 0
      && r.value.browserVersion != "" && r.value.viewportWidth != 0 && r.value.viewportHeight != 0
    ensures r.Ok? && opts.navigationTimeout == 0 ==> r.value.navigationTimeout == DefaultNavigationTimeout
    ensures r.Ok? && opts.navigationTimeout != 0 ==> r.value.navigationTimeout == opts.navigationTimeout
    ensures r.Ok? && opts.totalTimeout == 0 ==> r.value.totalTimeout == DefaultTotalTimeout
    ensures r.Ok? && opts.totalTimeout != 0 ==> r.value.totalTimeout == opts.totalTimeout
    ensures r.Ok? && opts.browserVersion == "" ==> r.value.browserVersion == DefaultBrowserVersion
    ensures r.Ok? && opts.browserVersion != "" ==> r.value.browserVersion == opts.browserVersion
    ensures r.Ok? && (opts.viewportWidth == 0 || opts.viewportHeight == 0) ==>
      r.value.viewportWidth == DefaultViewportWidth && r.value.viewportHeight == DefaultViewportHeight
    ensures r.Ok? && opts.viewportWidth != 0 && opts.viewportHeight != 0 ==>
      r.value.viewportWidth == opts.viewportWidth && r.value.viewportHeight == opts.viewportHeight
  {
    if opts.url == "" then Err(EmptyURLError)
    else
      var nav := if opts.navigationTimeout == 0 then DefaultNavigationTimeout else opts.navigationTimeout;
      var total := if opts.totalTimeout == 0 then DefaultTotalTimeout else opts.totalTimeout;
      var version := if opts.browserVersion == "" then DefaultBrowserVersion else opts.browserVersion;
      var dims := if opts.viewportWidth == 0 || opts.viewportHeight == 0
                  then (DefaultViewportWidth, DefaultViewportHeight)
                  else (opts.viewportWidth, opts.viewportHeight);
      Ok(Settings(nav, total, version, dims.0, dims.1))
  }

  /** Filling in the defaults twice changes nothing more. */
  lemma ResolveOptionsIdempotent(opts: Options, s: Settings)
    requires ResolveOptions(opts) == Ok(s)
    ensures ResolveOptions(opts.(navigationTimeout := s.navigationTimeout, totalTimeout := s.totalTimeout,
                                 browserVersion := s.browserVersion, viewportWidth := s.viewportWidth,
                                 viewportHeight := s.viewportHeight)) == Ok(s)
  {
  }

  // ---------------------------------------------------------------------
  // Time to first byte

  /** The first-byte time of one entry, as a duration: the response headers'
      start offset, or zero when there is no timing or the offset is
      negative. The float-to-duration conversion truncates. */
  function EntryTTFB(e: CompletedEntry): (r: Duration)
    ensures r >= 0
    ensures e.response.response.timing.Some? && e.response.response.timing.value.receiveHeadersStart >= 0.0 ==>
      r == (e.response.response.timing.value.receiveHeadersStart * Millisecond as real).Floor
    ensures e.response.response.timing.Some? && e.response.response.timing.value.receiveHeadersStart < 0.0 ==> r == 0
    ensures e.response.response.timing.None? ==> r == 0
  {
    match e.response.response.timing
    case None => 0
    case Some(t) => if t.receiveHeadersStart < 0.0 then 0 else (t.receiveHeadersStart * Millisecond as real).Floor
  }

  predicate IsDocument(e: CompletedEntry)
  {
    e.request.resourceType == Document
  }

  /** The first-byte time of the first document entry, zero without one.
      Only the first document entry is consulted, even when its timing is
      missing and a later document entry has some. */
  function TTFBOf(entries: seq<CompletedEntry>): (r: Duration)
    ensures r >= 0
    ensures (forall k :: 0 <= k < |entries| ==> !IsDocument(entries[k])) ==> r == 0
    ensures forall i ::
      0 <= i < |entries| && IsDocument(entries[i]) && (forall k :: 0 <= k < i ==> !IsDocument(entries[k]))
      ==> r == EntryTTFB(entries[i])
  {
    if entries == [] then 0
    else if IsDocument(entries[0]) then EntryTTFB(entries[0])
    else
      var r := TTFBOf(entries[1..]);
      assert forall i :: 1 <= i < |entries| ==> entries[i] == entries[1..][i - 1];
      r
  }

  /** Scans for the first document entry and returns its first-byte time. */
  method ExtractTTFB(entries: seq<CompletedEntry>) returns (ttfb: Duration)
    ensures ttfb == TTFBOf(entries)
  {
    for i := 0 to |entries|
      invariant forall k :: 0 <= k < i ==> !IsDocument(entries[k])
    {
      if !IsDocument(entries[i]) {
        continue;
      }
      var t := entries[i].response.response.timing;
      if t.None? || t.value.receiveHeadersStart < 0.0 {
        return 0;
      }
      return (t.value.receiveHeadersStart * Millisecond as real).Floor;
    }
    return 0;
  }

  // ---------------------------------------------------------------------
  // The listener

  /** The page reference of the request with id `id`. */
  function PageRef(id: RequestId): string
  {
    "page_" + id
  }

  /** The pending request a request-sent event registers. */
  function PendingOf(ev: RequestWillBeSent): PendingRequest
  {
    PendingRequest(ev.requestId, ev.request.httpMethod, ev.request.url, ev.request.headers,
                   ev.wallTime, ev.resourceType, PageRef(ev.requestId))
  }

  /** The HAR page a document request opens; its title is the URL. */
  function PageOf(ev: RequestWillBeSent): Page
  {
    Page(PageRef(ev.requestId), ev.wallTime, ev.request.url)
  }

  /** Everything the listener changes: the pending requests, the collector's
      buffer, the screenshots taken and whether completion was signalled. */
  datatype ListenerState = ListenerState(
    pending: Pending, buffer: seq<Item>, shots: seq<Screenshot>, done: bool)

  const Initial: ListenerState := ListenerState(map[], [], [], false)

  /** The effect of one event on the listener's state. A request is always
      registered and opens a page when it is a document; a response yields
      an entry when it correlates; a lifecycle event triggers a screenshot
      when screenshots are on, and network idle also signals completion. */
  function Step(s: ListenerState, ev: Event, screenshots: bool, attempt: ShotAttempt): ListenerState
  {
    match ev
    case RequestSent(e) =>
      s.(pending := s.pending[e.requestId := PendingOf(e)],
         buffer := s.buffer + (if e.resourceType == Document then [PageItem(PageOf(e))] else []))
    case ResponseArrived(e) =>
      var c := Correlation(s.pending, e);
      s.(pending := Remaining(s.pending, e),
         buffer := s.buffer + (if c.Some? then [EntryItem(c.value)] else []))
    case Lifecycle(name) =>
      if name == StageName(Load) || name == StageName(FirstContentfulPaint) then
        var stage := if name == StageName(Load) then Load else FirstContentfulPaint;
        s.(shots := s.shots + (if screenshots then ShotOf(stage, attempt) else []))
      else if name == StageName(NetworkIdle) then
        s.(shots := s.shots + (if screenshots then ShotOf(NetworkIdle, attempt) else []), done := true)
      else s
    case Unrelated => s
  }

  /** What one event makes the listener send to the collector. */
  function Sent(pending: Pending, ev: Event): seq<Item>
  {
    match ev
    case RequestSent(e) => if e.resourceType == Document then [PageItem(PageOf(e))] else []
    case ResponseArrived(e) =>
      var c := Correlation(pending, e);
      if c.Some? then [EntryItem(c.value)] else []
    case _ => []
  }

  /** A step appends to the buffer exactly what the event sends: a page for
      a document request, an entry for a correlated response, nothing else. */
  lemma StepBuffer(s: ListenerState, ev: Event, screenshots: bool, attempt: ShotAttempt)
    ensures Step(s, ev, screenshots, attempt).buffer == s.buffer + Sent(s.pending, ev)
    ensures |PagesOf(Sent(s.pending, ev))| == (if ev.RequestSent? && ev.sent.resourceType == Document then 1 else 0)
    ensures |EntriesOf(Sent(s.pending, ev))| <= (if ev.ResponseArrived? then 1 else 0)
    ensures forall k :: 0 <= k < |Sent(s.pending, ev)| ==> !Sent(s.pending, ev)[k].OtherItem?
  {
  }

  /** The listener's state after the events `evs`, the i-th screenshot
      attempt belonging to the i-th event. */
  function Replay(s: ListenerState, evs: seq<Event>, screenshots: bool, attempts: seq<ShotAttempt>): ListenerState
    requires |attempts| == |evs|
  {
    if evs == [] then s
    else
      Step(Replay(s, evs[..|evs| - 1], screenshots, attempts[..|evs| - 1]),
           evs[|evs| - 1], screenshots, attempts[|evs| - 1])
  }

  /** The number of document requests among `evs`. */
  function DocumentRequests(evs: seq<Event>): nat
  {
    if evs == [] then 0
    else
      var last := evs[|evs| - 1];
      DocumentRequests(evs[..|evs| - 1]) + (if last.RequestSent? && last.sent.resourceType == Document then 1 else 0)
  }

  /** The number of responses among `evs`. */
  function Responses(evs: seq<Event>): nat
  {
    if evs == [] then 0
    else Responses(evs[..|evs| - 1]) + (if evs[|evs| - 1].ResponseArrived? then 1 else 0)
  }

  /** The buffer only grows: what the listener buffered after a prefix of
      the events is a prefix of what it buffered after all of them. */
  lemma {:induction false} ReplayBufferGrows(s: ListenerState, evs: seq<Event>, screenshots: bool,
                                            attempts: seq<ShotAttempt>, i: nat)
    requires |attempts| == |evs| && i <= |evs|
    ensures Replay(s, evs[..i], screenshots, attempts[..i]).buffer
         <= Replay(s, evs, screenshots, attempts).buffer
  {
    if i < |evs| {
      var n := |evs| - 1;
      assert evs[..n][..i] == evs[..i] && attempts[..n][..i] == attempts[..i];
      ReplayBufferGrows(s, evs[..n], screenshots, attempts[..n], i);
      StepBuffer(Replay(s, evs[..n], screenshots, attempts[..n]), evs[n], screenshots, attempts[n]);
    } else {
      assert evs[..i] == evs && attempts[..i] == attempts;
    }
  }

  /** Nothing observed is lost: the listener buffers exactly one page per
      document request and at most one entry per response, and never
      anything the drain would drop. */
  lemma {:induction false} ReplayAccounts(s: ListenerState, evs: seq<Event>, screenshots: bool,
                                         attempts: seq<ShotAttempt>)
    requires |attempts| == |evs|
    ensures var r := Replay(s, evs, screenshots, attempts);
      && |PagesOf(r.buffer)| == |PagesOf(s.buffer)| + DocumentRequests(evs)
      && |EntriesOf(r.buffer)| <= |EntriesOf(s.buffer)| + Responses(evs)
      && ((forall k :: 0 <= k < |s.buffer| ==> !s.buffer[k].OtherItem?) ==>
            forall k :: 0 <= k < |r.buffer| ==> !r.buffer[k].OtherItem?)
  {
    if evs != [] {
      var n := |evs| - 1;
      var before := Replay(s, evs[..n], screenshots, attempts[..n]);
      ReplayAccounts(s, evs[..n], screenshots, attempts[..n]);
      var sent := Sent(before.pending, evs[n]);
      StepBuffer(before, evs[n], screenshots, attempts[n]);
      DrainAppend(before.buffer, sent);
    }
  }

  /** A response whose id is not pending, never seen or already paired,
      changes nothing at all. */
  lemma UnmatchedResponseIgnored(s: ListenerState, e: ResponseReceived, screenshots: bool, attempt: ShotAttempt)
    requires e.requestId !in s.pending
    ensures Step(s, ResponseArrived(e), screenshots, attempt) == s
  {
    assert Remaining(s.pending, e) == s.pending;
  }

  /** With screenshots off, the listener never adds a screenshot. */
  lemma {:induction false} ReplayNoShots(s: ListenerState, evs: seq<Event>, attempts: seq<ShotAttempt>)
    requires |attempts| == |evs|
    ensures Replay(s, evs, false, attempts).shots == s.shots
  {
    if evs != [] {
      ReplayNoShots(s, evs[..|evs| - 1], attempts[..|evs| - 1]);
    }
  }

  /** The lifecycle event that marks the page as settled. */
  predicate IsIdle(ev: Event)
  {
    ev.Lifecycle? && ev.name == StageName(NetworkIdle)
  }

  /** Completion is signalled exactly when a network-idle event has been
      seen, however many items the listener sent before it. */
  lemma {:induction false} ReplayDone(s: ListenerState, evs: seq<Event>, screenshots: bool,
                                     attempts: seq<ShotAttempt>)
    requires |attempts| == |evs|
    ensures Replay(s, evs, screenshots, attempts).done <==>
      s.done || exists j :: 0 <= j < |evs| && IsIdle(evs[j])
  {
    if evs != [] {
      var n := |evs| - 1;
      ReplayDone(s, evs[..n], screenshots, attempts[..n]);
      if exists j :: 0 <= j < n && IsIdle(evs[..n][j]) {
        var j :| 0 <= j < n && IsIdle(evs[..n][j]);
        assert IsIdle(evs[j]);
      }
      if exists j :: 0 <= j < |evs| && IsIdle(evs[j]) {
        var j :| 0 <= j < |evs| && IsIdle(evs[j]);
        if j < n {
          assert IsIdle(evs[..n][j]);
        }
      }
    }
  }

  /** With the channel read only by the wait's drain, once its select has
      fired, the listener gets through the events `evs[..k]` only while the channel has room
      for everything they send. When every network-idle event comes after
      the listener has sent more than the channel holds, no prefix it can
      get through has signalled completion, so the wait ends only at the
      deadline, although the whole stream does contain network idle. */
  lemma OverfullListenerMissesIdle(evs: seq<Event>, screenshots: bool, attempts: seq<ShotAttempt>, k: nat)
    requires |attempts| == |evs| && k <= |evs|
    requires |Replay(Initial, evs[..k], screenshots, attempts[..k]).buffer| <= Capacity
    requires forall j :: 0 <= j < |evs| && IsIdle(evs[j]) ==>
      |Replay(Initial, evs[..j], screenshots, attempts[..j]).buffer| > Capacity
    ensures !Replay(Initial, evs[..k], screenshots, attempts[..k]).done
    ensures (exists j :: 0 <= j < |evs| && IsIdle(evs[j])) ==> Replay(Initial, evs, screenshots, attempts).done
  {
    ReplayDone(Initial, evs, screenshots, attempts);
    ReplayDone(Initial, evs[..k], screenshots, attempts[..k]);
    forall j | 0 <= j < k
      ensures !IsIdle(evs[..k][j])
    {
      assert evs[..k][..j] == evs[..j] && attempts[..k][..j] == attempts[..j];
      ReplayBufferGrows(Initial, evs[..k], screenshots, attempts[..k], j);
      assert evs[..k][j] == evs[j];
    }
  }

  /** The listener's view of the three objects it drives. */
  ghost function StateOf(store: RequestStore, coll: Collector, sc: ScreenshotCollector): ListenerState
    reads store, coll, coll.doneOnce, sc
  {
    ListenerState(store.pending, coll.buffer, sc.results, coll.doneOnce.closed)
  }

  /** Registers the request and, for a document, sends its page. */
  method OnRequest(ev: RequestWillBeSent, store: RequestStore, coll: Collector)
    requires coll.Valid()
    requires ev.resourceType == Document ==> |coll.buffer| < Capacity
    modifies store, coll
    ensures coll.Valid()
    ensures store.pending == old(store.pending)[ev.requestId := PendingOf(ev)]
    ensures coll.buffer == old(coll.buffer) + (if ev.resourceType == Document then [PageItem(PageOf(ev))] else [])
  {
    store.AddRequest(PendingOf(ev));
    if ev.resourceType == Document {
      coll.Send(PageItem(PageOf(ev)));
    }
  }

  /** Sends the completed entry when the response correlates; otherwise the
      collector is left alone. */
  method OnResponse(ev: ResponseReceived, store: RequestStore, coll: Collector)
    requires coll.Valid()
    requires ev.requestId in store.pending ==> |coll.buffer| < Capacity
    modifies store, coll
    ensures coll.Valid()
    ensures store.pending == Remaining(old(store.pending), ev)
    ensures var c := Correlation(old(store.pending), ev);
      coll.buffer == old(coll.buffer) + (if c.Some? then [EntryItem(c.value)] else [])
  {
    var entry := store.Correlate(ev);
    if entry.Some? {
      coll.Send(EntryItem(entry.value));
    }
  }

  /** The protocol listener: routes one event. `attempt` is how a screenshot
      spawned for this event would end. */
  method Listen(ev: Event, screenshots: bool, attempt: ShotAttempt,
                store: RequestStore, coll: Collector, sc: ScreenshotCollector)
    requires coll.Valid()
    requires |coll.buffer| + |Sent(store.pending, ev)| <= Capacity
    modifies store, coll, coll.doneOnce, sc
    ensures coll.Valid()
    ensures StateOf(store, coll, sc) == Step(old(StateOf(store, coll, sc)), ev, screenshots, attempt)
  {
    match ev {
      case RequestSent(e) =>
        OnRequest(e, store, coll);
      case ResponseArrived(e) =>
        OnResponse(e, store, coll);
      case Lifecycle(name) =>
        if name == StageName(Load) || name == StageName(FirstContentfulPaint) {
          if screenshots {
            sc.Capture(if name == StageName(Load) then Load else FirstContentfulPaint, attempt);
          }
        } else if name == StageName(NetworkIdle) {
          if screenshots {
            sc.Capture(NetworkIdle, attempt);
          }
          coll.MarkDone();
        }
      case Unrelated =>
    }
  }

  // ---------------------------------------------------------------------
  // One run

  /** How navigation ended: normally, by its own deadline (not fatal), or
      with any other error (fatal). */
  /** How navigation ended. `NavTimedOut` is any error that is a deadline
      expiry or a cancellation: navigation's own deadline, the total
      deadline, or the caller's context being cancelled. */
  datatype NavOutcome = Navigated | NavTimedOut | NavFailed(message: string)

  datatype CaptureResult = CaptureResult(
    har: HarTypes.Har, ttfb: Duration, screenshots: seq<Screenshot>, timedOut: bool)

  /** The listener's next event fits in the channel, and handling it
      extends the replay by one event. */
  lemma DeliverStep(events: seq<Event>, screenshots: bool, attempts: seq<ShotAttempt>, i: nat)
    requires |attempts| == |events| && i < |events|
    requires |Replay(Initial, events, screenshots, attempts).buffer| <= Capacity
    ensures var s := Replay(Initial, events[..i], screenshots, attempts[..i]);
      && |s.buffer| + |Sent(s.pending, events[i])| <= Capacity
      && Replay(Initial, events[..i + 1], screenshots, attempts[..i + 1]) == Step(s, events[i], screenshots, attempts[i])
  {
    var s := Replay(Initial, events[..i], screenshots, attempts[..i]);
    ReplayBufferGrows(Initial, events, screenshots, attempts, i + 1);
    assert events[..i + 1][..i] == events[..i] && attempts[..i + 1][..i] == attempts[..i];
    StepBuffer(s, events[i], screenshots, attempts[i]);
  }

  /** Creates the request store, the collector and the screenshot collector
      and lets the listener receive `events`, the i-th screenshot attempt
      belonging to the i-th event. */
  method Deliver(events: seq<Event>, attempts: seq<ShotAttempt>, screenshots: bool)
    returns (store: RequestStore, coll: Collector, sc: ScreenshotCollector)
    requires |attempts| == |events|
    requires |Replay(Initial, events, screenshots, attempts).buffer| <= Capacity
    ensures fresh(store) && fresh(coll) && fresh(coll.doneOnce) && fresh(sc)
    ensures coll.Valid()
    ensures StateOf(store, coll, sc) == Replay(Initial, events, screenshots, attempts)
  {
    store := new RequestStore();
    coll := new Collector();
    sc := new ScreenshotCollector();

    for i := 0 to |events|
      invariant fresh(store) && fresh(coll) && fresh(coll.doneOnce) && fresh(sc)
      invariant coll.Valid()
      invariant StateOf(store, coll, sc) == Replay(Initial, events[..i], screenshots, attempts[..i])
    {
      DeliverStep(events, screenshots, attempts, i);
      Listen(events[i], screenshots, attempts[i], store, coll, sc);
    }
    assert events[..|events|] == events && attempts[..|attempts|] == attempts;
  }

  /** The closing screenshot taken after a timed-out run, on a tab whose
      context is still live: a screenshot of network-idle stage exactly
      when screenshots are on, the run timed out and the attempt succeeds. */
  function IntendedFallback(screenshots: bool, timedOut: bool, attempt: ShotAttempt): (r: seq<Screenshot>)
    ensures |r| <= 1
    ensures r != [] <==> screenshots && timedOut && attempt.Taken?
    ensures r != [] ==> r[0] == Screenshot(NetworkIdle, attempt.capturedAt, attempt.png)
  {
    if screenshots && timedOut then ShotOf(NetworkIdle, attempt) else []
  }

  /** The closing screenshot as the run takes it: the tab context descends
      from the total deadline's context, so once the collector's wait has
      ended by that deadline the screenshot runs on a cancelled context and
      fails whatever the browser could have done. Only a navigation
      timeout followed by network idle leaves the context live. */
  function FallbackAsWritten(screenshots: bool, timedOut: bool, deadlineExpired: bool,
                             attempt: ShotAttempt): (r: seq<Screenshot>)
    ensures deadlineExpired ==> r == []
    ensures !deadlineExpired ==> r == IntendedFallback(screenshots, timedOut, attempt)
  {
    if screenshots && timedOut then ShotOf(NetworkIdle, if deadlineExpired then ShotFailed else attempt) else []
  }

  /** A run that reaches the total deadline with screenshots on, where the
      browser could take the closing screenshot, ends without it. */
  lemma FallbackLostAfterDeadline()
    ensures FallbackAsWritten(true, true, true, Taken(0, [])) == []
    ensures IntendedFallback(true, true, Taken(0, [])) == [Screenshot(NetworkIdle, 0, [])]
  {
  }

  /** One capture run. `events` is what the listener received before the
      wait returned, `attempts` how each screenshot spawned for them ended,
      `nav` how navigation ended, `outcome` which branch of the wait fired
      and `finalAttempt` how the closing screenshot ends if one is taken. */
  method Capture(opts: Options, events: seq<Event>, attempts: seq<ShotAttempt>,
                 nav: NavOutcome, outcome: SelectOutcome, finalAttempt: ShotAttempt)
    returns (r: Result<CaptureResult>)
    requires |attempts| == |events|
    requires |Replay(Initial, events, opts.screenshots, attempts).buffer| <= Capacity
    requires outcome == DoneSignalled ==> Replay(Initial, events, opts.screenshots, attempts).done
    ensures opts.url == "" ==> r == Err(EmptyURLError)
    ensures opts.url != "" && nav.NavFailed? ==> r == Err("capture: navigation failed: " + nav.message)
    ensures r.Ok? <==> opts.url != "" && !nav.NavFailed?
    ensures r.Ok? ==>
      var s := Replay(Initial, events, opts.screenshots, attempts);
      var res := r.value;
      && res.timedOut == (nav == NavTimedOut || outcome == DeadlineExpired)
      && res.har.log.browser.version == ResolveOptions(opts).value.browserVersion
      && res.har.log.pages == PagesOf(s.buffer)
      && |res.har.log.entries| == |EntriesOf(s.buffer)|
      && (forall i :: 0 <= i < |res.har.log.entries| ==>
            Har.IsEntryOf(res.har.log.entries[i], EntriesOf(s.buffer)[i]))
      && res.ttfb == TTFBOf(EntriesOf(s.buffer))
      && SortedByStage(res.screenshots)
      && multiset(res.screenshots) == multiset(s.shots) +
           multiset(IntendedFallback(opts.screenshots, res.timedOut, finalAttempt))
    ensures r.Ok? && !opts.screenshots ==> r.value.screenshots == []
  {
    var settings := ResolveOptions(opts);
    if settings.Err? {
      return Err(settings.message);
    }

    var store, coll, sc := Deliver(events, attempts, opts.screenshots);

    var timedOut := false;
    match nav {
      case NavFailed(message) =>
        return Err("capture: navigation failed: " + message);
      case NavTimedOut =>
        timedOut := true;
      case Navigated =>
    }

    var pages, entries, collTimedOut := coll.Wait(outcome);
    timedOut := timedOut || collTimedOut;

    if opts.screenshots && timedOut {
      sc.Capture(NetworkIdle, finalAttempt);
    }
    var shots := sc.Wait();
    if !opts.screenshots {
      ReplayNoShots(Initial, events, attempts);
      assert |multiset(shots)| == 0;
    }

    var h := Har.AssembleHAR(pages, entries, settings.value.browserVersion);
    var ttfb := ExtractTTFB(entries);
    return Ok(CaptureResult(h, ttfb, shots, timedOut));
  }
}
