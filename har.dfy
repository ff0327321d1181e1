/** The HAR assembler (internal/capture/har.go): correlated request/response
    pairs become HAR 1.2 entries, with timing phases rebuilt from the
    protocol's offsets under the "-1 means absent" rule. */
module Har {
  import opened Results
  import opened Network
  import opened Events
  import opened HarTypes

  // ---------------------------------------------------------------------
  // Timings

  /** The length of the phase from `start` to `end`, or -1 when the phase
      did not occur (either offset negative). */
  function PhaseOrBlocked(start: real, end: real): (r: real)
    ensures start < 0.0 || end < 0.0 ==> r == -1.0
    ensures start >= 0.0 && end >= 0.0 ==> start + r == end
  {
    if start < 0.0 || end < 0.0 then -1.0 else end - start
  }

  /** The HAR timings of a response. Without protocol timing only send,
      wait and receive are marked absent; the other fields keep their zero
      value. With timing, blocked and receive are always absent, wait runs
      from the end of sending to the end of the response headers. */
  function BuildTimings(t: Option<ResourceTiming>): (r: Timings)
    ensures t.None? ==> r == Timings(0.0, 0.0, 0.0, -1.0, -1.0, -1.0, 0.0)
    ensures t.Some? ==>
      && r.blocked == -1.0 && r.receive == -1.0
      && r.dns == PhaseOrBlocked(t.value.dnsStart, t.value.dnsEnd)
      && r.connect == PhaseOrBlocked(t.value.connectStart, t.value.connectEnd)
      && r.ssl == PhaseOrBlocked(t.value.sslStart, t.value.sslEnd)
      && r.send == PhaseOrBlocked(t.value.sendStart, t.value.sendEnd)
      && (t.value.sendEnd >= 0.0 && t.value.receiveHeadersEnd >= 0.0 ==>
            r.wait == t.value.receiveHeadersEnd - t.value.sendEnd)
      && (t.value.sendEnd < 0.0 || t.value.receiveHeadersEnd < 0.0 ==> r.wait == -1.0)
  {
    match t
    case None => Timings(blocked := 0.0, dns := 0.0, connect := 0.0, send := -1.0,
                         wait := -1.0, receive := -1.0, ssl := 0.0)
    case Some(rt) =>
      var wait := if rt.sendEnd >= 0.0 && rt.receiveHeadersEnd >= 0.0
                  then rt.receiveHeadersEnd - rt.sendEnd else -1.0;
      Timings(
        blocked := -1.0,
        dns := PhaseOrBlocked(rt.dnsStart, rt.dnsEnd),
        connect := PhaseOrBlocked(rt.connectStart, rt.connectEnd),
        send := PhaseOrBlocked(rt.sendStart, rt.sendEnd),
        wait := wait,
        receive := -1.0,
        ssl := PhaseOrBlocked(rt.sslStart, rt.sslEnd))
  }

  /** The phases that count towards an entry's total time, in the order the
      source adds them. The TLS phase is part of connect and is not among them. */
  function Phases(t: Timings): seq<real>
  {
    [t.blocked, t.dns, t.connect, t.send, t.wait, t.receive]
  }

  /** The sum of the strictly positive values of `vs`. */
  function SumPositive(vs: seq<real>): real
  {
    if vs == [] then 0.0
    else SumPositive(vs[..|vs| - 1]) + (if vs[|vs| - 1] > 0.0 then vs[|vs| - 1] else 0.0)
  }

  /** A sum of positive parts is never negative, is at least each positive
      value it covers, and is the plain sum when no value is negative. */
  lemma {:induction false} SumPositiveBounds(vs: seq<real>)
    ensures SumPositive(vs) >= 0.0
    ensures forall i :: 0 <= i < |vs| && vs[i] > 0.0 ==> SumPositive(vs) >= vs[i]
    ensures (forall i :: 0 <= i < |vs| ==> vs[i] <= 0.0) ==> SumPositive(vs) == 0.0
  {
    if vs != [] {
      SumPositiveBounds(vs[..|vs| - 1]);
    }
  }

  /** Absent phases (-1) contribute nothing to the total. */
  lemma {:induction false} SumPositiveSkipsAbsent(a: seq<real>, b: seq<real>)
    ensures SumPositive(a + [-1.0] + b) == SumPositive(a + b)
  {
    if b == [] {
      assert (a + [-1.0] + b)[..|a|] == a;
      assert a + b == a;
    } else {
      var init := b[..|b| - 1];
      SumPositiveSkipsAbsent(a, init);
      assert (a + [-1.0] + b)[..|a + [-1.0] + b| - 1] == a + [-1.0] + init;
      assert (a + b)[..|a + b| - 1] == a + init;
    }
  }

  /** The total time of an entry: the positive phases added up, starting
      from zero. */
  method TotalTime(t: Timings) returns (total: real)
    ensures total == SumPositive(Phases(t))
    ensures total >= 0.0
  {
    var phases := Phases(t);
    total := 0.0;
    for i := 0 to |phases|
      invariant total == SumPositive(phases[..i])
    {
      assert phases[..i + 1][..i] == phases[..i];
      if phases[i] > 0.0 {
        total := total + phases[i];
      }
    }
    assert phases[..|phases|] == phases;
    SumPositiveBounds(phases);
  }

  /** Without protocol timing an entry's total time is zero; with it, the
      total is the sum of the positive DNS, connect, send and wait phases. */
  lemma TotalOfBuiltTimings(t: Option<ResourceTiming>)
    ensures t.None? ==> SumPositive(Phases(BuildTimings(t))) == 0.0
    ensures t.Some? ==> var r := BuildTimings(t);
      SumPositive(Phases(r)) == SumPositive([r.dns, r.connect, r.send, r.wait])
  {
    var r := BuildTimings(t);
    if t.Some? {
      var middle := [r.dns, r.connect, r.send, r.wait];
      SumPositiveSkipsAbsent([], middle + [-1.0]);
      assert [] + [-1.0] + (middle + [-1.0]) == Phases(r);
      assert [] + (middle + [-1.0]) == middle + [-1.0] + [];
      SumPositiveSkipsAbsent(middle, []);
      assert middle + [] == middle;
    } else {
      SumPositiveBounds(Phases(r));
    }
  }

  // ---------------------------------------------------------------------
  // Headers

  /** The elements of `vs` joined by single spaces. */
  function JoinSpaced(vs: seq<string>): string
  {
    if vs == [] then ""
    else if |vs| == 1 then vs[0]
    else vs[0] + " " + JoinSpaced(vs[1..])
  }

  /** The text `fmt.Sprint` renders for a header value: a list prints as
      its elements in brackets separated by spaces. */
  function Sprint(v: HeaderValue): string
  {
    match v
    case Many(vs) => "[" + JoinSpaced(vs) + "]"
    case Single(text) => text
  }

  /** The HAR pairs one header expands to: one per element of a list value,
      otherwise one carrying the printed value. */
  function ValuePairs(name: string, v: HeaderValue): seq<NameValuePair>
  {
    match v
    case Many(vs) => seq(|vs|, i requires 0 <= i < |vs| => NameValuePair(name, vs[i]))
    case Single(text) => [NameValuePair(name, text)]
  }

  /** `order` lists every header name exactly once: one possible iteration
      order of the header map. */
  ghost predicate IsKeyOrder(order: seq<string>, headers: Headers)
  {
    && (forall k :: k in order <==> k in headers)
    && (forall i, j :: 0 <= i < j < |order| ==> order[i] != order[j])
  }

  /** The pairs of the headers named in `order`, visited in that order. */
  function Expand(headers: Headers, order: seq<string>): seq<NameValuePair>
    requires forall k :: k in order ==> k in headers
  {
    if order == [] then []
    else
      var last := order[|order| - 1];
      Expand(headers, order[..|order| - 1]) + ValuePairs(last, headers[last])
  }

  /** `pairs` is the expansion of `headers` in some iteration order. */
  ghost predicate IsExpansion(pairs: seq<NameValuePair>, headers: Headers)
  {
    exists order :: IsKeyOrder(order, headers) && pairs == Expand(headers, order)
  }

  /** The pairs of `pairs` that carry `name`, in order. */
  function Named(pairs: seq<NameValuePair>, name: string): seq<NameValuePair>
  {
    if pairs == [] then []
    else Named(pairs[..|pairs| - 1], name) +
         (if pairs[|pairs| - 1].name == name then [pairs[|pairs| - 1]] else [])
  }

  lemma {:induction false} NamedAppend(a: seq<NameValuePair>, b: seq<NameValuePair>, name: string)
    ensures Named(a + b, name) == Named(a, name) + Named(b, name)
  {
    if b == [] {
      assert a + b == a;
    } else {
      var init := b[..|b| - 1];
      assert (a + b)[..|a + b| - 1] == a + init;
      NamedAppend(a, init, name);
    }
  }

  lemma {:induction false} NamedValuePairs(m: string, v: HeaderValue, name: string)
    ensures Named(ValuePairs(m, v), name) == if m == name then ValuePairs(m, v) else []
  {
    var ps := ValuePairs(m, v);
    var k := |ps|;
    assert ps[..k] == ps && ps[k..] == [];
    while k > 0
      invariant 0 <= k <= |ps|
      invariant Named(ps, name) == Named(ps[..k], name) + (if m == name then ps[k..] else [])
    {
      assert ps[..k][..k - 1] == ps[..k - 1];
      assert ps[k - 1..] == [ps[k - 1]] + ps[k..];
      assert ps[k - 1].name == m;
      k := k - 1;
    }
    assert ps[..0] == [];
    assert ps[..|ps|] == ps;
  }

  /** In a sequence without repeats, the last element does not occur
      before it, and the elements before it are still without repeats. */
  lemma DistinctInit(order: seq<string>)
    requires |order| > 0
    requires forall i, j :: 0 <= i < j < |order| ==> order[i] != order[j]
    ensures order[|order| - 1] !in order[..|order| - 1]
    ensures var init := order[..|order| - 1];
      forall i, j :: 0 <= i < j < |init| ==> init[i] != init[j]
  {
  }

  /** Expanding one more header adds, among the pairs carrying `name`,
      that header's pairs exactly when it is named `name`. */
  lemma ExpandNamedStep(headers: Headers, order: seq<string>, name: string)
    requires |order| > 0
    requires forall k :: k in order ==> k in headers
    ensures var n := |order| - 1;
      Named(Expand(headers, order), name) ==
        Named(Expand(headers, order[..n]), name) +
        (if name == order[n] then ValuePairs(order[n], headers[order[n]]) else [])
  {
    var n := |order| - 1;
    var vp := ValuePairs(order[n], headers[order[n]]);
    NamedAppend(Expand(headers, order[..n]), vp, name);
    NamedValuePairs(order[n], headers[order[n]], name);
  }

  /** Whatever the iteration order, the pairs named after a header are
      exactly that header's values in their own order, and no pair carries
      a name that is not a header. */
  lemma {:induction false} ExpandPerHeader(headers: Headers, order: seq<string>, name: string)
    requires forall i, j :: 0 <= i < j < |order| ==> order[i] != order[j]
    requires forall k :: k in order ==> k in headers
    ensures name in order ==> Named(Expand(headers, order), name) == ValuePairs(name, headers[name])
    ensures name !in order ==> Named(Expand(headers, order), name) == []
  {
    if order != [] {
      var n := |order| - 1;
      var init := order[..n];
      DistinctInit(order);
      assert order == init + [order[n]];
      ExpandPerHeader(headers, init, name);
      ExpandNamedStep(headers, order, name);
    }
  }

  /** The pairs a header named `name` expands to; none when there is no
      such header. */
  function HeaderPairs(headers: Headers, name: string): seq<NameValuePair>
  {
    if name in headers then ValuePairs(name, headers[name]) else []
  }

  /** Expanding the headers in any order that visits each exactly once
      yields, per name, exactly that header's pairs. */
  lemma ExpandAnyOrder(headers: Headers, order: seq<string>)
    requires IsKeyOrder(order, headers)
    ensures forall name :: Named(Expand(headers, order), name) == HeaderPairs(headers, name)
  {
    forall name
      ensures Named(Expand(headers, order), name) == HeaderPairs(headers, name)
    {
      ExpandPerHeader(headers, order, name);
    }
  }

  /** Expands each header into HAR name/value pairs, visiting the headers in
      an unspecified order (Go's map iteration order); `order` records the
      order taken. */
  method HeadersToHAR(headers: Headers) returns (pairs: seq<NameValuePair>, ghost order: seq<string>)
    ensures IsKeyOrder(order, headers)
    ensures pairs == Expand(headers, order)
    ensures forall name :: Named(pairs, name) == HeaderPairs(headers, name)
  {
    pairs, order := [], [];
    var remaining := headers.Keys;
    while remaining != {}
      invariant remaining <= headers.Keys
      invariant forall k :: k in order <==> k in headers && k !in remaining
      invariant forall i, j :: 0 <= i < j < |order| ==> order[i] != order[j]
      invariant pairs == Expand(headers, order)
      decreases remaining
    {
      var name :| name in remaining;
      ghost var before := pairs;
      match headers[name] {
        case Many(arr) =>
          for i := 0 to |arr|
            invariant pairs == before + ValuePairs(name, Many(arr[..i]))
          {
            pairs := pairs + [NameValuePair(name, arr[i])];
          }
          assert arr[..|arr|] == arr;
        case Single(text) =>
          pairs := pairs + [NameValuePair(name, text)];
      }
      order := order + [name];
      remaining := remaining - {name};
    }
    ExpandAnyOrder(headers, order);
  }

  /** `url` is what a redirect lookup over `headers` may return: the printed
      value under `Location` or under `location`, or "" when neither key is
      present. Other spellings are not looked at. */
  ghost predicate IsRedirectOf(url: string, headers: Headers)
  {
    if "Location" !in headers && "location" !in headers then url == ""
    else
      || ("Location" in headers && url == Sprint(headers["Location"]))
      || ("location" in headers && url == Sprint(headers["location"]))
  }

  /** Looks for a `Location` or `location` header, in map iteration order. */
  method RedirectURL(headers: Headers) returns (url: string)
    ensures IsRedirectOf(url, headers)
    ensures "Location" in headers && "location" !in headers ==> url == Sprint(headers["Location"])
    ensures "location" in headers && "Location" !in headers ==> url == Sprint(headers["location"])
  {
    var remaining := headers.Keys;
    while remaining != {}
      invariant remaining <= headers.Keys
      invariant forall k :: k in headers && k !in remaining ==> k != "Location" && k != "location"
      decreases remaining
    {
      var k :| k in remaining;
      if k == "Location" || k == "location" {
        return Sprint(headers[k]);
      }
      remaining := remaining - {k};
    }
    return "";
  }

  // ---------------------------------------------------------------------
  // Entries and the document

  /** `r` is a HAR entry built from `c`: request and response fields copied,
      headers expanded, sizes unknown (-1), no body content, timings rebuilt
      and the time their positive total. */
  ghost predicate IsEntryOf(r: Entry, c: CompletedEntry)
  {
    var req := c.request;
    var resp := c.response.response;
    && r.pageref == req.pageRef
    && r.startedDateTime == req.wallTime
    && r.request.httpMethod == req.httpMethod
    && r.request.url == req.url
    && r.request.httpVersion == resp.protocol
    && IsExpansion(r.request.headers, req.headers)
    && r.request.headersSize == -1 && r.request.bodySize == -1
    && r.response.status == resp.status
    && r.response.statusText == resp.statusText
    && r.response.httpVersion == resp.protocol
    && IsExpansion(r.response.headers, resp.headers)
    && r.response.content == Content(resp.mimeType, 0)
    && IsRedirectOf(r.response.redirectURL, resp.headers)
    && r.response.headersSize == -1 && r.response.bodySize == -1
    && r.timings == BuildTimings(resp.timing)
    && r.time == SumPositive(Phases(r.timings))
  }

  /** Builds the HAR entry of one correlated pair. */
  method BuildEntry(c: CompletedEntry) returns (entry: Entry)
    ensures IsEntryOf(entry, c)
    ensures entry.time >= 0.0
  {
    var req := c.request;
    var resp := c.response.response;
    var reqHeaders, reqOrder := HeadersToHAR(req.headers);
    var respHeaders, respOrder := HeadersToHAR(resp.headers);
    var redirect := RedirectURL(resp.headers);
    var timings := BuildTimings(resp.timing);
    var time := TotalTime(timings);
    entry := Entry(
      pageref := req.pageRef,
      startedDateTime := req.wallTime,
      request := HarTypes.Request(req.httpMethod, req.url, resp.protocol, reqHeaders, -1, -1),
      response := HarTypes.Response(resp.status, resp.statusText, resp.protocol, respHeaders,
                           Content(resp.mimeType, 0), redirect, -1, -1),
      timings := timings,
      time := time);
  }

  const HarVersion: string := "1.2"
  const BrowserName: string := "Google Chrome"
  const CreatorName: string := "har-capture"
  const CreatorVersion: string := "0.1.0"

  /** Assembles the HAR document: one page per input page and one entry per
      input entry, both in input order. */
  method AssembleHAR(pages: seq<Page>, entries: seq<CompletedEntry>, browserVersion: string)
    returns (h: Har)
    ensures h.log.version == HarVersion
    ensures h.log.browser == Creator(BrowserName, browserVersion)
    ensures h.log.creator == Creator(CreatorName, CreatorVersion)
    ensures h.log.pages == pages
    ensures |h.log.entries| == |entries|
    ensures forall i :: 0 <= i < |entries| ==> IsEntryOf(h.log.entries[i], entries[i])
  {
    var harPages: seq<Page> := [];
    for i := 0 to |pages|
      invariant harPages == pages[..i]
    {
      harPages := harPages + [pages[i]];
    }
    assert pages[..|pages|] == pages;
    var harEntries: seq<Entry> := [];
    for i := 0 to |entries|
      invariant |harEntries| == i
      invariant forall k :: 0 <= k < i ==> IsEntryOf(harEntries[k], entries[k])
    {
      var entry := BuildEntry(entries[i]);
      harEntries := harEntries + [entry];
    }
    h := Har(Log(HarVersion, Creator(BrowserName, browserVersion),
                 Creator(CreatorName, CreatorVersion), harPages, harEntries));
  }
}
