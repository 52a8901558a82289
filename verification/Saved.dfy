/** The state file of a scheduler state, field by field. */
module Saved {
  import opened Types
  import opened Scheduler
  import opened Snapshot
  import opened Layout
  import Persistence
  import StateFile
  import Sha256Spec

  // ---- enumerators ----

  const REQUEST_STATES: seq<RequestState> := [
    RequestState.Created, RequestState.Eligible, RequestState.Waiting, RequestState.Reserved, RequestState.Batched,
    RequestState.SealedMember, RequestState.Dispatched, RequestState.Running, RequestState.Completed,
    RequestState.Cancelled, RequestState.Expired, RequestState.Rejected, RequestState.Failed]

  const BATCH_STATES: seq<BatchState> := [
    BatchState.Forming, BatchState.Sealed, BatchState.Dispatched, BatchState.Running, BatchState.PartiallyCompleted,
    BatchState.Completed, BatchState.Cancelled, BatchState.Failed, BatchState.Superseded]

  /** A state is saved as its place in the enumeration. */
  lemma StateNumbers(st: RequestState, bst: BatchState)
    ensures RequestByte(st) < 13 && REQUEST_STATES[RequestByte(st)] == st
    ensures BatchByte(bst) < 9 && BATCH_STATES[BatchByte(bst)] == bst
  {
  }

  // ---- records ----

  function RequestEntry(r: Id, q: Request): seq<Field>
    requires RequestSized(r, q)
  {
    [Long(r)] + SubmitFields(q.meta)
    + [Octet(RequestByte(q.state)), Time(q.submitted), Long(q.batch), Long(q.current)] + Counted(AsWords(q.attempts))
  }

  /** Its batch and the time it started are zero in every file. */
  function AttemptEntry(a: Id, x: Attempt): seq<Field>
    requires AttemptSized(a, x)
  {
    [Long(a), Word(x.number), Octet(RequestByte(x.state)), Long(0)] + [Octet(x.outcome), Text(x.result), Time(0), Time(x.completed)]
  }

  function BatchEntry(b: Id, x: Batch, c: Closing): seq<Field>
    requires BatchSized(b, x)
  {
    [Long(b), Long(x.generation), Long(x.epoch), Octet(BatchByte(x.state)), Raw(x.key)] + Counted(AsWords(x.members))
    + [Word(x.accum.count), Long(x.accum.input), Long(x.accum.output), Long(x.accum.work), Long(x.accum.memory)]
    + [Time(x.formed), Time(c.closed), Time(c.dispatched), Time(c.completed)]
    + [Octet(c.reason), Long(x.worker), Long(x.boot)]
    + Counted(AsWords(x.parents)) + Counted(AsWords(x.children))
  }

  function RequestEntries(rs: Requests, order: seq<Id>): seq<Field>
    requires forall r :: r in order ==> r in rs && RequestSized(r, rs[r])
  {
    if order == [] then [] else RequestEntry(order[0], rs[order[0]]) + RequestEntries(rs, order[1..])
  }

  function AttemptEntries(at: Attempts, order: seq<Id>): seq<Field>
    requires forall a :: a in order ==> a in at && AttemptSized(a, at[a])
  {
    if order == [] then [] else AttemptEntry(order[0], at[order[0]]) + AttemptEntries(at, order[1..])
  }

  function BatchEntries(bs: Batches, order: seq<Id>, cs: map<Id, Closing>): seq<Field>
    requires forall b :: b in order ==> b in bs && BatchSized(b, bs[b]) && b in cs
  {
    if order == [] then [] else BatchEntry(order[0], bs[order[0]], cs[order[0]]) + BatchEntries(bs, order[1..], cs)
  }

  // ---- the file ----

  function StateFields(s: State, o: Orders, ps: Persistence.Listing): seq<Field>
    requires Sized(s) && Walks(s, o)
  {
    [Word(0x46435254), Word(1)]
    + [Long(s.epoch), Long(s.nextRequest), Long(s.nextBatch), Long(s.nextAttempt), Long(s.nextGeneration)]
    + [Long(|s.requests|), Long(|s.attempts|), Long(|s.batches|)]
    + RequestEntries(s.requests, o.requests) + AttemptEntries(s.attempts, o.attempts)
    + BatchEntries(s.batches, o.batches, o.closings)
    + [Long(|ps|)] + Each(ServedFields, ps)
  }

  lemma {:induction false} RequestsEntered(rs: Requests, order: seq<Id>)
    requires forall r :: r in order ==> r in rs && RequestSized(r, rs[r])
    ensures Each(RequestFields, RequestRows(rs, order)) == RequestEntries(rs, order)
  {
    hide RequestSized, SubmitFields, Counted;
    if order != [] {
      RequestsEntered(rs, order[1..]);
      assert RequestRows(rs, order)[1..] == RequestRows(rs, order[1..]);
      assert order[0] in order;
    }
  }

  lemma {:induction false} AttemptsEntered(at: Attempts, order: seq<Id>)
    requires forall a :: a in order ==> a in at && AttemptSized(a, at[a])
    ensures Each(AttemptFields, AttemptRows(at, order)) == AttemptEntries(at, order)
  {
    if order != [] {
      AttemptsEntered(at, order[1..]);
      assert AttemptRows(at, order)[1..] == AttemptRows(at, order[1..]);
      assert order[0] in order;
    }
  }

  lemma {:induction false} BatchesEntered(bs: Batches, order: seq<Id>, cs: map<Id, Closing>)
    requires forall b :: b in order ==> b in bs && BatchSized(b, bs[b]) && b in cs
    ensures Each(BatchFields, BatchRows(bs, order, cs)) == BatchEntries(bs, order, cs)
  {
    hide BatchSized, Counted;
    if order != [] {
      BatchesEntered(bs, order[1..], cs);
      assert BatchRows(bs, order, cs)[1..] == BatchRows(bs, order[1..], cs);
      assert order[0] in order;
    }
  }

  /** Each table has as many records as it has entries. */
  lemma TableSizes(s: State, o: Orders)
    requires Walks(s, o)
    ensures |o.requests| == |s.requests| && |o.attempts| == |s.attempts| && |o.batches| == |s.batches|
  {
    CountOfOrder(o.requests, s.requests.Keys);
    CountOfOrder(o.attempts, s.attempts.Keys);
    CountOfOrder(o.batches, s.batches.Keys);
  }

  /** Saving a state writes these fields and the digest of their bytes. */
  lemma StateLayout(s: State, o: Orders, ps: Persistence.Listing)
    requires Sized(s) && Walks(s, o) && StateFile.Countable(TablesOf(s, o))
    ensures var body := Laid(StateFields(s, o, ps), []);
            StateFile.Save(TablesOf(s, o), ps) == body + Sha256Spec.Digest(body)
  {
    hide Laid, Each, RequestFields, AttemptFields, BatchFields, ServedFields, Sha256Spec.Digest, StateFile.Save;
    hide RequestEntries, AttemptEntries, BatchEntries, RequestRow, AttemptRow, BatchRow, RequestSized, AttemptSized, BatchSized;
    TableSizes(s, o);
    RequestsEntered(s.requests, o.requests);
    AttemptsEntered(s.attempts, o.attempts);
    BatchesEntered(s.batches, o.batches, o.closings);
    FileLayout(TablesOf(s, o), ps);
    assert FileFields(TablesOf(s, o), ps) == StateFields(s, o, ps);
  }
}
