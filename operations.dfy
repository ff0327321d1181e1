/** The in-memory operation store (internal/operation/operation.go). Each
    operation is a record under its id; `update` rewrites one record and
    stamps it, and does not itself check that the status moves forward. */
module Operations {
  import opened Results

  datatype Status = Pending | Running | Complete | Failed

  /** time.Time, as an abstract instant. */
  type Time = int

  /** time.Duration, in nanoseconds. */
  type Duration = int

  datatype Artefact = Artefact(name: string, signedURL: string, expiresAt: Time)

  datatype Operation = Operation(
    id: string,
    status: Status,
    url: string,
    createdAt: Time,
    updatedAt: Time,
    ttfb: Duration,
    timedOut: bool,
    artefacts: seq<Artefact>,
    error: string)

  /** The change each Mark* method asks `update` to apply. */
  datatype Change =
    | ToRunning
    | ToComplete(ttfb: Duration, timedOut: bool, artefacts: seq<Artefact>)
    | ToFailed(message: string)

  /** The record after a change, before it is stamped. Only the fields the
      change names are written. */
  function Apply(op: Operation, c: Change): (r: Operation)
    ensures r.id == op.id && r.url == op.url && r.createdAt == op.createdAt && r.updatedAt == op.updatedAt
    ensures c == ToRunning ==> r == op.(status := Running)
    ensures c.ToComplete? ==>
      && r.status == Complete && r.ttfb == c.ttfb && r.timedOut == c.timedOut
      && r.artefacts == c.artefacts && r.error == op.error
    ensures c.ToFailed? ==>
      && r.status == Failed && r.error == c.message
      && r.ttfb == op.ttfb && r.timedOut == op.timedOut && r.artefacts == op.artefacts
  {
    match c
    case ToRunning => op.(status := Running)
    case ToComplete(ttfb, timedOut, artefacts) =>
      op.(status := Complete, ttfb := ttfb, timedOut := timedOut, artefacts := artefacts)
    case ToFailed(message) => op.(status := Failed, error := message)
  }

  /** The error text for an unknown id (`%q` quoting, without escapes). */
  function NotFound(id: string): string
  {
    "operation \"" + id + "\" not found"
  }

  /** The store after `update(id, c)` at time `now`: the one record changed
      and stamped, every other record as it was; an unknown id changes
      nothing. */
  function Updated(ops: map<string, Operation>, id: string, c: Change, now: Time): (r: map<string, Operation>)
    ensures r.Keys == ops.Keys
    ensures forall other :: other in ops && other != id ==> r[other] == ops[other]
    ensures id in ops ==> r[id] == Apply(ops[id], c).(updatedAt := now)
  {
    if id in ops then ops[id := Apply(ops[id], c).(updatedAt := now)] else ops
  }

  /** The forward-only lifecycle: pending, then running, then complete or
      failed. */
  predicate Advances(from: Status, to: Status)
  {
    (from == Pending && to == Running) || (from == Running && (to == Complete || to == Failed))
  }

  /** Marking running and then applying any terminal change walks a pending
      operation forward through the lifecycle, and the store keeps it. */
  lemma RunningThenTerminalAdvances(ops: map<string, Operation>, id: string, terminal: Change, t1: Time, t2: Time)
    requires id in ops && ops[id].status == Pending
    requires !terminal.ToRunning?
    ensures var running := Updated(ops, id, ToRunning, t1);
      var finished := Updated(running, id, terminal, t2);
      && id in finished
      && Advances(ops[id].status, running[id].status)
      && Advances(running[id].status, finished[id].status)
  {
  }

  class MemoryStore {
    var ops: map<string, Operation>

    /** NewMemoryStore: no operations. */
    constructor ()
      ensures ops == map[]
    {
      ops := map[];
    }

    /** Records a new pending operation for `url` under the fresh id `id`
        (a new UUID in the source). The clock is read once for each
        timestamp, so `created` and `updated` are two readings. */
    method Create(url: string, id: string, created: Time, updated: Time) returns (op: Operation)
      requires id !in ops
      modifies this
      ensures op.id == id && op.status == Pending && op.url == url
      ensures op.createdAt == created && op.updatedAt == updated
      ensures op.ttfb == 0 && !op.timedOut && op.artefacts == [] && op.error == ""
      ensures ops == old(ops)[id := op]
    {
      op := Operation(id, Pending, url, created, updated, 0, false, [], "");
      ops := ops[id := op];
    }

    /** A copy of the record under `id`, or "not found". */
    method Get(id: string) returns (r: Result<Operation>)
      ensures id in ops ==> r == Ok(ops[id])
      ensures id !in ops ==> r == Err(NotFound(id))
    {
      if id !in ops {
        return Err(NotFound(id));
      }
      var copy := ops[id];
      return Ok(copy);
    }

    /** Applies `c` to the record under `id` and stamps it with `now`; an
        unknown id is an error and changes nothing. */
    method Update(id: string, c: Change, now: Time) returns (err: Outcome)
      modifies this
      ensures err == (if id in old(ops) then Pass else Fail(NotFound(id)))
      ensures ops == Updated(old(ops), id, c, now)
    {
      if id !in ops {
        return Fail(NotFound(id));
      }
      var op := ops[id];
      op := Apply(op, c);
      op := op.(updatedAt := now);
      ops := ops[id := op];
      return Pass;
    }

    method MarkRunning(id: string, now: Time) returns (err: Outcome)
      modifies this
      ensures err == (if id in old(ops) then Pass else Fail(NotFound(id)))
      ensures ops == Updated(old(ops), id, ToRunning, now)
      ensures id in ops ==> ops[id] == old(ops)[id].(status := Running, updatedAt := now)
    {
      err := Update(id, ToRunning, now);
    }

    method MarkComplete(id: string, ttfb: Duration, timedOut: bool, artefacts: seq<Artefact>, now: Time)
      returns (err: Outcome)
      modifies this
      ensures err == (if id in old(ops) then Pass else Fail(NotFound(id)))
      ensures ops == Updated(old(ops), id, ToComplete(ttfb, timedOut, artefacts), now)
    {
      err := Update(id, ToComplete(ttfb, timedOut, artefacts), now);
    }

    /** `message` is the failing error's text. */
    method MarkFailed(id: string, message: string, now: Time) returns (err: Outcome)
      modifies this
      ensures err == (if id in old(ops) then Pass else Fail(NotFound(id)))
      ensures ops == Updated(old(ops), id, ToFailed(message), now)
    {
      err := Update(id, ToFailed(message), now);
    }
  }
}
