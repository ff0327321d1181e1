/** Request/response correlation (internal/capture/events.go): requests wait
    in a map keyed by request id until a response with the same id claims
    them, which removes them. */
module Events {
  import opened Results
  import opened Network

  /** The request side of a network exchange, awaiting its response. */
  datatype PendingRequest = PendingRequest(
    requestId: RequestId,
    httpMethod: string,
    url: string,
    headers: Headers,
    wallTime: string,
    resourceType: ResourceType,
    pageRef: string)

  /** A request paired with the response event that answered it. */
  datatype CompletedEntry = CompletedEntry(request: PendingRequest, response: ResponseReceived)

  type Pending = map<RequestId, PendingRequest>

  /** What `correlate` returns for `ev` when the pending map is `pending`. */
  function Correlation(pending: Pending, ev: ResponseReceived): (r: Option<CompletedEntry>)
    ensures r.Some? <==> ev.requestId in pending
    ensures r.Some? ==> r.value.request == pending[ev.requestId] && r.value.response == ev
  {
    if ev.requestId in pending then Some(CompletedEntry(pending[ev.requestId], ev)) else None
  }

  /** The pending map that `correlate` leaves behind: the id is consumed. */
  function Remaining(pending: Pending, ev: ResponseReceived): (r: Pending)
    ensures r.Keys == pending.Keys - {ev.requestId}
    ensures forall id :: id in r ==> r[id] == pending[id]
  {
    pending - {ev.requestId}
  }

  /** What correlating a stream of responses yields: the requests still
      pending and the entries produced, in order. */
  datatype Drain = Drain(rest: Pending, entries: seq<CompletedEntry>)

  /** Correlating a stream of responses with no request in between. */
  function CorrelateAll(pending: Pending, evs: seq<ResponseReceived>): Drain
  {
    if evs == [] then Drain(pending, [])
    else
      var d := CorrelateAll(Remaining(pending, evs[0]), evs[1..]);
      match Correlation(pending, evs[0])
      case Some(e) => Drain(d.rest, [e] + d.entries)
      case None => d
  }

  /** Once a response has been paired, a second response with the same id
      finds nothing and leaves the map as it is. */
  lemma SecondCorrelationFails(pending: Pending, ev: ResponseReceived, again: ResponseReceived)
    requires again.requestId == ev.requestId
    ensures Correlation(Remaining(pending, ev), again) == None
    ensures Remaining(Remaining(pending, ev), again) == Remaining(pending, ev)
  {
  }

  /** Pairing removes exactly one request from the map. */
  lemma RemainingSize(pending: Pending, ev: ResponseReceived)
    requires ev.requestId in pending
    ensures |Remaining(pending, ev)| == |pending| - 1
  {
    assert Remaining(pending, ev).Keys == pending.Keys - {ev.requestId};
    assert |pending.Keys - {ev.requestId}| == |pending.Keys| - 1;
  }

  /** Correlation only consumes: every pairing removes exactly one request
      from the map and nothing is ever added. */
  lemma {:induction false} CorrelateAllConsumes(pending: Pending, evs: seq<ResponseReceived>)
    ensures CorrelateAll(pending, evs).rest.Keys <= pending.Keys
    ensures |CorrelateAll(pending, evs).entries| + |CorrelateAll(pending, evs).rest| == |pending|
  {
    if evs != [] {
      var ev := evs[0];
      var after := Remaining(pending, ev);
      CorrelateAllConsumes(after, evs[1..]);
      var d := CorrelateAll(after, evs[1..]);
      if ev.requestId in pending {
        RemainingSize(pending, ev);
        assert CorrelateAll(pending, evs) == Drain(d.rest, [CompletedEntry(pending[ev.requestId], ev)] + d.entries);
      } else {
        assert after == pending;
      }
    }
  }

  /** `e` answers a request that was pending in `before` under the
      response's id and is no longer pending in `after`. */
  ghost predicate PairedFrom(e: CompletedEntry, before: Pending, after: Pending)
  {
    && e.response.requestId in before
    && e.response.requestId !in after
    && e.request == before[e.response.requestId]
  }

  /** One pairing step of `CorrelateAllPairsPending`: the entry produced for
      `ev` is followed by the entries of the drain of what `ev` left. */
  lemma PairedFromPrepend(pending: Pending, ev: ResponseReceived, d: Drain)
    requires ev.requestId in pending
    requires d.rest.Keys <= Remaining(pending, ev).Keys
    requires forall e :: e in d.entries ==> PairedFrom(e, Remaining(pending, ev), d.rest)
    ensures forall e :: e in [CompletedEntry(pending[ev.requestId], ev)] + d.entries ==>
      PairedFrom(e, pending, d.rest)
  {
    forall e | e in d.entries
      ensures PairedFrom(e, pending, d.rest)
    {
      assert PairedFrom(e, Remaining(pending, ev), d.rest);
    }
  }

  /** Every entry pairs a response with the request that was pending under
      that response's id, and that id is no longer pending afterwards. */
  lemma {:induction false} CorrelateAllPairsPending(pending: Pending, evs: seq<ResponseReceived>)
    ensures forall e :: e in CorrelateAll(pending, evs).entries ==>
      PairedFrom(e, pending, CorrelateAll(pending, evs).rest)
  {
    if evs != [] {
      var ev := evs[0];
      var after := Remaining(pending, ev);
      CorrelateAllPairsPending(after, evs[1..]);
      CorrelateAllConsumes(after, evs[1..]);
      var d := CorrelateAll(after, evs[1..]);
      if ev.requestId in pending {
        PairedFromPrepend(pending, ev, d);
        assert CorrelateAll(pending, evs) == Drain(d.rest, [CompletedEntry(pending[ev.requestId], ev)] + d.entries);
      } else {
        assert after == pending;
      }
    }
  }

  /** No two entries answer the same request id. */
  ghost predicate DistinctIds(entries: seq<CompletedEntry>)
  {
    forall i, j :: 0 <= i < j < |entries| ==>
      entries[i].response.requestId != entries[j].response.requestId
  }

  /** A response pairs with its request at most once: the ids of the
      entries produced from any stream of responses are pairwise distinct. */
  lemma {:induction false} CorrelateAllAtMostOnce(pending: Pending, evs: seq<ResponseReceived>)
    ensures DistinctIds(CorrelateAll(pending, evs).entries)
  {
    if evs != [] {
      var ev := evs[0];
      var after := Remaining(pending, ev);
      CorrelateAllAtMostOnce(after, evs[1..]);
      CorrelateAllPairsPending(after, evs[1..]);
      var d := CorrelateAll(after, evs[1..]);
      if ev.requestId in pending {
        var entries := [CompletedEntry(pending[ev.requestId], ev)] + d.entries;
        assert CorrelateAll(pending, evs).entries == entries;
        forall i, j | 0 <= i < j < |entries|
          ensures entries[i].response.requestId != entries[j].response.requestId
        {
          assert entries[j] == d.entries[j - 1];
          if i == 0 {
            assert PairedFrom(d.entries[j - 1], after, d.rest);
          } else {
            assert entries[i] == d.entries[i - 1];
          }
        }
      }
    }
  }

  /** The correlation key space, guarded by a mutex in the source. */
  class RequestStore {
    var pending: Pending

    /** newRequestStore: nothing is pending. */
    constructor ()
      ensures pending == map[]
    {
      pending := map[];
    }

    /** Registers `r` under its id, replacing any earlier request with that
        id and leaving every other id as it was. */
    method AddRequest(r: PendingRequest)
      modifies this
      ensures pending == old(pending)[r.requestId := r]
      ensures r.requestId in pending && pending[r.requestId] == r
      ensures forall id :: id != r.requestId ==>
        (id in pending <==> id in old(pending)) && (id in pending ==> pending[id] == old(pending)[id])
    {
      pending := pending[r.requestId := r];
    }

    /** Pairs `ev` with the request it answers and consumes that request,
        or reports no match and changes nothing. */
    method Correlate(ev: ResponseReceived) returns (entry: Option<CompletedEntry>)
      modifies this
      ensures entry == Correlation(old(pending), ev)
      ensures pending == Remaining(old(pending), ev)
      ensures entry.None? ==> pending == old(pending)
      ensures pending.Keys <= old(pending).Keys
    {
      if ev.requestId !in pending {
        return None;
      }
      var req := pending[ev.requestId];
      pending := pending - {ev.requestId};
      entry := Some(CompletedEntry(req, ev));
    }
  }
}
