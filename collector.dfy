/** The event collector (internal/capture/collector.go): a 64-slot FIFO of
    pages and completed entries fed by the protocol listener, plus a
    completion signal that can be raised at most once (the `onceCloser` of
    internal/capture/capture.go). */
module Collector {
  import opened Events
  import HarTypes

  /** What the listener hands to `send`. Go accepts any value; `OtherItem`
      stands for a value of any type other than a page or an entry. */
  datatype Item = PageItem(page: HarTypes.Page) | EntryItem(entry: CompletedEntry) | OtherItem

  /** The buffer size of the result channel. */
  const Capacity: nat := 64

  /** Which ready case the `select` in `wait` took. */
  datatype SelectOutcome = DoneSignalled | DeadlineExpired

  /** The pages among `items`, in buffer order. */
  function PagesOf(items: seq<Item>): seq<HarTypes.Page>
  {
    if items == [] then []
    else
      var last := items[|items| - 1];
      PagesOf(items[..|items| - 1]) + (if last.PageItem? then [last.page] else [])
  }

  /** The completed entries among `items`, in buffer order. */
  function EntriesOf(items: seq<Item>): seq<CompletedEntry>
  {
    if items == [] then []
    else
      var last := items[|items| - 1];
      EntriesOf(items[..|items| - 1]) + (if last.EntryItem? then [last.entry] else [])
  }

  /** A page is drained exactly when it was buffered, and likewise an entry:
      the drain loses nothing of either kind and invents nothing. */
  lemma {:induction false} DrainKeepsMembers(items: seq<Item>)
    ensures forall p :: p in PagesOf(items) <==> PageItem(p) in items
    ensures forall e :: e in EntriesOf(items) <==> EntryItem(e) in items
  {
    if items != [] {
      var init := items[..|items| - 1];
      DrainKeepsMembers(init);
      assert items == init + [items[|items| - 1]];
    }
  }

  /** The drain returns at most one value per buffered item, and exactly one
      per item when every item is a page or an entry. */
  lemma {:induction false} DrainCount(items: seq<Item>)
    ensures |PagesOf(items)| + |EntriesOf(items)| <= |items|
    ensures (forall i :: 0 <= i < |items| ==> !items[i].OtherItem?) ==>
      |PagesOf(items)| + |EntriesOf(items)| == |items|
  {
    if items != [] {
      DrainCount(items[..|items| - 1]);
    }
  }

  /** Drains of consecutive stretches of the buffer concatenate. */
  lemma {:induction false} DrainAppend(a: seq<Item>, b: seq<Item>)
    ensures PagesOf(a + b) == PagesOf(a) + PagesOf(b)
    ensures EntriesOf(a + b) == EntriesOf(a) + EntriesOf(b)
  {
    if b != [] {
      var init := b[..|b| - 1];
      assert (a + b)[..|a + b| - 1] == a + init;
      DrainAppend(a, init);
    } else {
      assert a + b == a;
    }
  }

  /** Closes a channel at most once. `closed` is the state of the channel;
      closing a closed channel would panic, which `Close` never does. */
  class OnceCloser {
    var closed: bool
    var done: bool

    ghost predicate Valid()
      reads this
    {
      done == closed
    }

    constructor ()
      ensures Valid() && !closed
    {
      closed, done := false, false;
    }

    /** The first call closes the channel; every later call is a no-op. */
    method Close()
      requires Valid()
      modifies this
      ensures Valid() && done && closed
      ensures old(done) ==> closed == old(closed) && done == old(done)
    {
      if !done {
        done := true;
        assert !closed;  // the channel is still open, so closing it cannot panic
        closed := true;
      }
    }
  }

  class Collector {
    var buffer: seq<Item>
    const doneOnce: OnceCloser

    ghost predicate Valid()
      reads this, doneOnce
    {
      |buffer| <= Capacity && doneOnce.Valid()
    }

    /** newCollector: an empty buffer and a completion signal not yet raised. */
    constructor ()
      ensures Valid() && fresh(doneOnce)
      ensures buffer == [] && !doneOnce.closed
    {
      buffer := [];
      doneOnce := new OnceCloser();
    }

    /** Pushes `v` at the back of the buffer. The source blocks while the
        buffer is full; here the caller must leave room. */
    method Send(v: Item)
      requires Valid() && |buffer| < Capacity
      modifies this
      ensures Valid()
      ensures buffer == old(buffer) + [v]
    {
      buffer := buffer + [v];
    }

    /** Raises the completion signal; idempotent. */
    method MarkDone()
      requires Valid()
      modifies doneOnce
      ensures Valid() && doneOnce.closed
      ensures old(doneOnce.closed) ==> doneOnce.closed == old(doneOnce.closed) && doneOnce.done == old(doneOnce.done)
    {
      doneOnce.Close();
    }

    /** Files one drained item under pages or entries; other values are
        dropped. */
    method Accumulate(data: Item, pages: seq<HarTypes.Page>, entries: seq<CompletedEntry>)
      returns (pages': seq<HarTypes.Page>, entries': seq<CompletedEntry>)
      ensures pages' == pages + PagesOf([data])
      ensures entries' == entries + EntriesOf([data])
      ensures data.OtherItem? ==> pages' == pages && entries' == entries
    {
      pages', entries' := pages, entries;
      match data
      case PageItem(p) => pages' := pages + [p];
      case EntryItem(e) => entries' := entries + [e];
      case OtherItem =>
    }

    /** Returns once the completion signal was raised or the deadline passed,
        then drains the whole buffer in arrival order. The deadline branch
        reports `timedOut` but loses nothing that was buffered. */
    method Wait(outcome: SelectOutcome) returns (pages: seq<HarTypes.Page>, entries: seq<CompletedEntry>, timedOut: bool)
      requires Valid()
      requires outcome == DoneSignalled ==> doneOnce.closed
      modifies this
      ensures Valid() && buffer == []
      ensures pages == PagesOf(old(buffer)) && entries == EntriesOf(old(buffer))
      ensures timedOut <==> outcome == DeadlineExpired
    {
      timedOut := false;
      match outcome {
        case DoneSignalled =>
        case DeadlineExpired => timedOut := true;
      }

      ghost var initial := buffer;
      pages, entries := [], [];
      while |buffer| > 0
        invariant |buffer| <= |initial| && buffer == initial[|initial| - |buffer|..]
        invariant pages == PagesOf(initial[..|initial| - |buffer|])
        invariant entries == EntriesOf(initial[..|initial| - |buffer|])
        decreases |buffer|
      {
        ghost var k := |initial| - |buffer|;
        var item := buffer[0];
        buffer := buffer[1..];
        pages, entries := Accumulate(item, pages, entries);
        assert initial[..k + 1] == initial[..k] + [item];
        DrainAppend(initial[..k], [item]);
      }
      assert initial[..|initial|] == initial;
    }
  }
}
