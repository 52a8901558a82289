/** Saving the scheduler: the tables that stand for a state, and which states a
    core run reaches come back from the state file. */
module Snapshot {
  import opened Types
  import opened Policy
  import opened Lists
  import opened Scheduler
  import opened Wide
  import opened Placement
  import opened Core
  import opened Invariant
  import opened Ticking
  import opened Engine
  import opened Persistence
  import Octets
  import Canonical
  import Identity
  import Wire
  import StateFile
  import Sizes
  import Totals
  import Trials
  import Ledger

  // ---- enumerators as they are saved ----

  function RequestByte(st: RequestState): U8 {
    match st
    case Created => 0
    case Eligible => 1
    case Waiting => 2
    case Reserved => 3
    case Batched => 4
    case SealedMember => 5
    case Dispatched => 6
    case Running => 7
    case Completed => 8
    case Cancelled => 9
    case Expired => 10
    case Rejected => 11
    case Failed => 12
  }

  function BatchByte(st: BatchState): U8 {
    match st
    case Forming => 0
    case Sealed => 1
    case Dispatched => 2
    case Running => 3
    case PartiallyCompleted => 4
    case Completed => 5
    case Cancelled => 6
    case Failed => 7
    case Superseded => 8
  }

  // ---- what the C++ field widths guarantee ----

  predicate Word(n: int) { 0 <= n < 0x1_0000_0000_0000_0000 }

  predicate Words(xs: seq<Id>) { forall x :: x in xs ==> Word(x) }

  function AsWords(xs: seq<Id>): (r: seq<U64>)
    requires Words(xs)
    ensures r == xs
  {
    assert forall i | 0 <= i < |xs| :: xs[i] in xs && Word(xs[i]);
    seq<U64>(|xs|, i requires 0 <= i < |xs| => xs[i])
  }

  predicate Time(t: int) { -0x8000_0000_0000_0000 <= t < 0x8000_0000_0000_0000 }

  predicate RequestSized(r: Id, q: Request) {
    Word(r) && Time(q.submitted) && Word(q.batch) && Word(q.current) && Words(q.attempts)
  }

  predicate AttemptSized(a: Id, x: Attempt) { Word(a) && x.number < 0x1_0000_0000 && Time(x.completed) }

  predicate BatchSized(b: Id, x: Batch) {
    && Word(b) && Word(x.generation) && Word(x.epoch) && |x.key| == 32 && Words(x.members) && Time(x.formed)
    && Word(x.worker) && Word(x.boot) && Words(x.parents) && Words(x.children) && |x.children| <= Identity.ANY_LENGTH
  }

  predicate CountersSized(s: State) {
    && Word(s.epoch) && Word(s.nextRequest) && Word(s.nextBatch) && Word(s.nextAttempt) && Word(s.nextGeneration)
    && Word(|s.requests|) && Word(|s.attempts|) && Word(|s.batches|) && Word(|s.served|)
  }

  predicate Sized(s: State) {
    && CountersSized(s)
    && (forall r :: r in s.requests ==> RequestSized(r, s.requests[r]))
    && (forall a :: a in s.attempts ==> AttemptSized(a, s.attempts[a]))
    && (forall b :: b in s.batches ==> BatchSized(b, s.batches[b]))
  }

  // ---- build_persisted ----

  /** The times at which a batch was sealed, dispatched and completed, and why it was
      sealed: saved, but of no consequence for the scheduler. */
  datatype Closing = Closing(closed: I64, dispatched: I64, completed: I64, reason: U8)

  /** The orders in which the three tables are walked. */
  datatype Orders = Orders(requests: seq<Id>, attempts: seq<Id>, batches: seq<Id>, closings: map<Id, Closing>)

  ghost predicate Walks(s: State, o: Orders) {
    && Visits(o.requests, s.requests.Keys) && Visits(o.attempts, s.attempts.Keys) && Visits(o.batches, s.batches.Keys)
    && o.closings.Keys == s.batches.Keys
  }

  function RequestRow(r: Id, q: Request): SavedRequest
    requires RequestSized(r, q)
  {
    SavedRequest(r, q.meta, RequestByte(q.state), q.submitted, q.batch, q.current, AsWords(q.attempts))
  }

  /** The batch and the start of an attempt are never set. */
  function AttemptRow(a: Id, x: Attempt): SavedAttempt
    requires AttemptSized(a, x)
  {
    SavedAttempt(a, x.number, RequestByte(x.state), 0, x.outcome, x.result, 0, x.completed)
  }

  function BatchRow(b: Id, x: Batch, c: Closing): SavedBatch
    requires BatchSized(b, x)
  {
    SavedBatch(b, x.generation, x.epoch, BatchByte(x.state), x.key, AsWords(x.members), x.accum,
               Stamps(x.formed, c.closed, c.dispatched, c.completed, c.reason, x.worker, x.boot),
               AsWords(x.parents), AsWords(x.children))
  }

  function RequestRows(rs: Requests, order: seq<Id>): seq<SavedRequest>
    requires forall r :: r in order ==> r in rs && RequestSized(r, rs[r])
  {
    seq(|order|, i requires 0 <= i < |order| => RequestRow(order[i], rs[order[i]]))
  }

  function AttemptRows(at: Attempts, order: seq<Id>): seq<SavedAttempt>
    requires forall a :: a in order ==> a in at && AttemptSized(a, at[a])
  {
    seq(|order|, i requires 0 <= i < |order| => AttemptRow(order[i], at[order[i]]))
  }

  function BatchRows(bs: Batches, order: seq<Id>, cs: map<Id, Closing>): seq<SavedBatch>
    requires forall b :: b in order ==> b in bs && BatchSized(b, bs[b]) && b in cs
  {
    seq(|order|, i requires 0 <= i < |order| => BatchRow(order[i], bs[order[i]], cs[order[i]]))
  }

  function CountersOf(s: State): Counters
    requires CountersSized(s)
  {
    Counters(s.epoch, s.nextRequest, s.nextBatch, s.nextAttempt, s.nextGeneration)
  }

  /** The tables that build_persisted fills. */
  function TablesOf(s: State, o: Orders): Tables
    requires Sized(s) && Walks(s, o)
  {
    Tables(CountersOf(s), RequestRows(s.requests, o.requests), AttemptRows(s.attempts, o.attempts),
           BatchRows(s.batches, o.batches, o.closings))
  }

  // ---- tenant names ----

  /** std::to_string of a tenant number. */
  function Name(t: U64): Bytes {
    var d := Canonical.Decimal(t);
    assert forall i | 0 <= i < |d| :: d[i] in d && Canonical.Digit(d[i]);
    seq<U8>(|d|, i requires 0 <= i < |d| => d[i] as int)
  }

  lemma NameInjective(t: U64, u: U64)
    requires Name(t) == Name(u)
    ensures t == u
  {
    hide Canonical.Decimal;
    var d, e := Canonical.Decimal(t), Canonical.Decimal(u);
    forall i | 0 <= i < |d| ensures d[i] == e[i] { assert Name(t)[i] == Name(u)[i]; }
    assert d == e;
    Canonical.DecimalRoundTrip(t);
    Canonical.DecimalRoundTrip(u);
  }

  lemma {:induction false} DecimalShort(n: nat, k: nat, bound: nat)
    requires n < bound && bound == Ten(k) && k > 0
    ensures |Canonical.Decimal(n)| <= k
  {
    if n >= 10 { DecimalShort(n / 10, k - 1, Ten(k - 1)); }
  }

  function Ten(k: nat): nat { if k == 0 then 1 else 10 * Ten(k - 1) }

  function ServedNames(served: map<U64, U64>): map<Bytes, U64> {
    assert forall t, u | t in served && u in served :: Name(t) == Name(u) ==> t == u by {
      forall t, u | t in served && u in served && Name(t) == Name(u) ensures t == u { NameInjective(t, u); }
    }
    map t | t in served :: Name(t) := served[t]
  }

  // ---- which states come back ----

  predicate RequestModest(q: Request) {
    Wire.MetaFits(q.meta) && MetaKnown(q.meta) && |q.attempts| <= MAX_ATTEMPTS
  }

  predicate AttemptModest(x: Attempt) { x.outcome <= 6 && |x.result| <= Octets.MAX_STRING }

  predicate BatchModest(x: Batch) {
    |x.members| <= MAX_RECORDS && |x.parents| <= MAX_RECORDS && |x.children| <= MAX_RECORDS
  }

  /** The reader's limits on counts and strings. */
  predicate Modest(s: State, o: Orders) {
    && |s.requests| <= MAX_RECORDS && |s.attempts| <= MAX_RECORDS && |s.batches| <= MAX_RECORDS && |s.served| <= MAX_RECORDS
    && (forall r :: r in s.requests ==> RequestModest(s.requests[r]))
    && (forall a :: a in s.attempts ==> AttemptModest(s.attempts[a]))
    && (forall b :: b in s.batches ==> BatchModest(s.batches[b]))
    && (forall b :: b in o.closings ==> o.closings[b].reason <= 10)
  }

  /** No request of a partially completed batch is listed by another unfinished one. */
  predicate Untangled(bs: Batches) {
    forall b, c, m | b in bs && c in bs && b != c && bs[b].state.PartiallyCompleted? && !BatchTerminal(bs[c].state) ::
      m in bs[b].members ==> m !in bs[c].members
  }

  /** No batch has taken in another. */
  predicate Unmerged(bs: Batches) { forall b :: b in bs ==> bs[b].parents == [] }

  lemma CountOfOrder(order: seq<Id>, keys: set<Id>)
    requires Visits(order, keys)
    ensures |order| == |keys|
    decreases |order|
  {
    if order == [] {
      assert keys == {};
    } else {
      NoDupTail(order);
      CountOfOrder(order[1..], keys - {order[0]});
    }
  }

  lemma NamesCount(ts: set<U64>)
    ensures |set t | t in ts :: Name(t)| == |ts|
  {
    hide Name;
    if ts != {} {
      var t :| t in ts;
      var rest := ts - {t};
      NamesCount(rest);
      forall u | u in rest ensures Name(u) != Name(t) { if Name(u) == Name(t) { NameInjective(t, u); } }
      assert (set u | u in ts :: Name(u)) == (set u | u in rest :: Name(u)) + {Name(t)};
    }
  }

  lemma NameShort(t: U64)
    ensures |Name(t)| <= 20
  {
    hide Canonical.Decimal;
    assert Ten(20) == 100_000_000_000_000_000_000 by { TenValues(); }
    DecimalShort(t, 20, Ten(20));
  }

  lemma TenValues()
    ensures Ten(20) == 100_000_000_000_000_000_000
  {
    assert Ten(5) == 100_000;
    assert Ten(10) == 10_000_000_000;
    assert Ten(15) == 1_000_000_000_000_000;
  }

  /** Names are never too long, and no two tenants share one. */
  lemma NamesFit(served: map<U64, U64>)
    ensures StateFile.MapFits(ServedNames(served)) <==> |served| <= MAX_RECORDS
    ensures |ServedNames(served)| == |served| && forall k :: k in ServedNames(served) ==> |k| <= 20
  {
    hide Name;
    var names := ServedNames(served);
    forall t | t in served ensures |Name(t)| <= 20 { NameShort(t); }
    NamesCount(served.Keys);
    assert names.Keys == set t | t in served.Keys :: Name(t);
    assert |names| == |names.Keys|;
    assert |served| == |served.Keys|;
  }

  lemma RowIds(s: State, o: Orders)
    requires Sized(s) && Walks(s, o)
    ensures var t := TablesOf(s, o);
            && StateFile.Ids(StateFile.RequestId, t.requests) == o.requests
            && StateFile.Ids(StateFile.AttemptId, t.attempts) == o.attempts
            && StateFile.Ids(StateFile.BatchId, t.batches) == o.batches
            && Mirrors(t.batches, s.batches, o.batches)
  {
    hide RequestSized, AttemptSized, BatchSized, AsWords, StateFile.Ids, RequestRows, AttemptRows, BatchRows, Mirrors;
    RequestIds(s.requests, o.requests);
    AttemptIds(s.attempts, o.attempts);
    BatchIds(s.batches, o.batches, o.closings);
  }

  lemma RequestIds(rs: Requests, order: seq<Id>)
    requires forall r :: r in order ==> r in rs && RequestSized(r, rs[r])
    ensures StateFile.Ids(StateFile.RequestId, RequestRows(rs, order)) == order
  {
    hide RequestSized, AsWords, StateFile.Ids;
    IdsAre(StateFile.RequestId, RequestRows(rs, order), order);
  }

  lemma AttemptIds(at: Attempts, order: seq<Id>)
    requires forall a :: a in order ==> a in at && AttemptSized(a, at[a])
    ensures StateFile.Ids(StateFile.AttemptId, AttemptRows(at, order)) == order
  {
    hide AttemptSized, StateFile.Ids;
    IdsAre(StateFile.AttemptId, AttemptRows(at, order), order);
  }

  lemma BatchIds(bs: Batches, order: seq<Id>, cs: map<Id, Closing>)
    requires forall b :: b in order ==> b in bs && BatchSized(b, bs[b]) && b in cs
    ensures StateFile.Ids(StateFile.BatchId, BatchRows(bs, order, cs)) == order && Mirrors(BatchRows(bs, order, cs), bs, order)
  {
    hide BatchSized, AsWords, StateFile.Ids;
    IdsAre(StateFile.BatchId, BatchRows(bs, order, cs), order);
  }

  lemma IdsAre<T>(id: T -> U64, xs: seq<T>, order: seq<Id>)
    requires |xs| == |order| && forall i :: 0 <= i < |xs| ==> id(xs[i]) == order[i]
    ensures StateFile.Ids(id, xs) == order
  {
    var ids := StateFile.Ids(id, xs);
    assert |ids| == |order| && forall i | 0 <= i < |ids| :: ids[i] == order[i];
  }

  /** The rows stand for the batches, in this order. */
  predicate Mirrors(rows: seq<SavedBatch>, bs: Batches, order: seq<Id>) {
    && |rows| == |order|
    && forall i :: 0 <= i < |rows| ==>
         && rows[i].id == order[i] && order[i] in bs && rows[i].members == bs[order[i]].members
         && (StateFile.Active(rows[i]) <==> !BatchTerminal(bs[order[i]].state))
  }

  lemma RequestsModest(rs: Requests, order: seq<Id>)
    requires Visits(order, rs.Keys) && forall r :: r in rs ==> RequestSized(r, rs[r])
    ensures StateFile.RequestsFit(RequestRows(rs, order)) <==> |rs| <= MAX_RECORDS && forall r :: r in rs ==> RequestModest(rs[r])
  {
    hide Wire.MetaFits, MetaKnown, RequestSized, AsWords;
    var rows := RequestRows(rs, order);
    CountOfOrder(order, rs.Keys);
    assert |rs| == |rs.Keys|;
    forall i | 0 <= i < |order| ensures RequestFits(rows[i]) == RequestModest(rs[order[i]]) {
    }
    if StateFile.RequestsFit(rows) {
      forall r | r in rs ensures RequestModest(rs[r]) {
        var i :| 0 <= i < |order| && order[i] == r;
        assert rows[i] in rows;
      }
    }
  }

  lemma AttemptsModest(at: Attempts, order: seq<Id>)
    requires Visits(order, at.Keys) && forall a :: a in at ==> AttemptSized(a, at[a])
    ensures StateFile.AttemptsFit(AttemptRows(at, order)) <==> |at| <= MAX_RECORDS && forall a :: a in at ==> AttemptModest(at[a])
  {
    hide AttemptSized;
    var rows := AttemptRows(at, order);
    CountOfOrder(order, at.Keys);
    assert |at| == |at.Keys|;
    forall i | 0 <= i < |order| ensures AttemptFits(rows[i]) == AttemptModest(at[order[i]]) {
    }
    if StateFile.AttemptsFit(rows) {
      forall a | a in at ensures AttemptModest(at[a]) {
        var i :| 0 <= i < |order| && order[i] == a;
        assert rows[i] in rows;
      }
    }
  }

  lemma BatchesModest(bs: Batches, order: seq<Id>, cs: map<Id, Closing>)
    requires Visits(order, bs.Keys) && cs.Keys == bs.Keys && forall b :: b in bs ==> BatchSized(b, bs[b])
    ensures StateFile.BatchesFit(BatchRows(bs, order, cs))
            <==> |bs| <= MAX_RECORDS && (forall b :: b in bs ==> BatchModest(bs[b])) && forall b :: b in cs ==> cs[b].reason <= 10
  {
    hide AsWords;
    var rows := BatchRows(bs, order, cs);
    CountOfOrder(order, bs.Keys);
    assert |bs| == |bs.Keys|;
    forall i | 0 <= i < |order|
      ensures BatchFits(rows[i]) <==> BatchModest(bs[order[i]]) && cs[order[i]].reason <= 10
    {
      assert BatchSized(order[i], bs[order[i]]);
    }
    if StateFile.BatchesFit(rows) {
      forall b | b in bs ensures BatchModest(bs[b]) && cs[b].reason <= 10 {
        var i :| 0 <= i < |order| && order[i] == b;
        assert rows[i] in rows;
      }
    }
  }

  /** Without splits a lineage is readable only if it is empty: there are no children,
      and no parent has number zero. */
  lemma LineagesExact(p: BatchPolicy, bs: Batches, order: seq<Id>, cs: map<Id, Closing>)
    requires Visits(order, bs.Keys) && cs.Keys == bs.Keys && forall b :: b in bs ==> BatchSized(b, bs[b])
    requires AllCountOk(p, bs)
    ensures StateFile.LineagesReadable(BatchRows(bs, order, cs)) <==> Unmerged(bs)
  {
    hide BatchSized;
    var rows := BatchRows(bs, order, cs);
    forall i | 0 <= i < |rows| ensures LineageReadable(rows[i]) <==> bs[order[i]].parents == [] {
      RootedLineage(p, bs[order[i]]);
    }
    if StateFile.LineagesReadable(rows) {
      forall b | b in bs ensures bs[b].parents == [] {
        var i :| 0 <= i < |order| && order[i] == b;
        assert rows[i] in rows && LineageReadable(rows[i]);
      }
    }
  }

  lemma RootedLineage(p: BatchPolicy, b: Batch)
    requires CountOk(p, b)
    ensures (forall x :: x in b.parents ==> x == |b.children|) <==> b.parents == []
  {
    if b.parents != [] { assert b.parents[0] in b.parents; }
  }

  /** On a state of a core run only partially completed batches can make the tables
      incoherent. */
  lemma CoherentExact(p: BatchPolicy, s: State, o: Orders)
    requires Sized(s) && Walks(s, o) && Inv(p, s)
    ensures StateFile.Coherent(TablesOf(s, o)) <==> Untangled(s.batches)
  {
    hide Inv, TablesOf, StateFile.Ids, StateFile.Disjoint, StateFile.MembersKnown, Untangled, Mirrors;
    var rows := TablesOf(s, o).batches;
    RowIds(s, o);
    NoNullIds(p, s, o);
    MembersInOrder(p, s, o, rows, StateFile.Ids(StateFile.RequestId, TablesOf(s, o).requests));
    DisjointExact(p, s, o, rows);
  }

  lemma NoNullIds(p: BatchPolicy, s: State, o: Orders)
    requires Walks(s, o) && Inv(p, s)
    ensures 0 !in o.requests && 0 !in o.attempts && 0 !in o.batches
  {
    hide Keyed, AllSound, IndexKnown, FormingKnown, CoreBut, Trials.TrialInv, Ledger.LedgerInv, Bounded;
  }

  lemma MembersInOrder(p: BatchPolicy, s: State, o: Orders, rows: seq<SavedBatch>, ids: seq<U64>)
    requires Mirrors(rows, s.batches, o.batches) && ids == o.requests && Walks(s, o) && Inv(p, s)
    ensures StateFile.MembersKnown(rows, ids)
  {
    hide Numbered, Keyed, IndexKnown, FormingKnown, CoreBut, Trials.TrialInv, Ledger.LedgerInv, Bounded, Totals.Usage, StateFile.Active;
    forall row, m | row in rows && m in row.members ensures m in ids {
      var i :| 0 <= i < |rows| && rows[i] == row;
      assert Sound(p, s.requests, s.batches[o.batches[i]]);
      assert Candidate(p, s.requests, s.batches[o.batches[i]].key, m);
    }
  }

  lemma DisjointExact(p: BatchPolicy, s: State, o: Orders, rows: seq<SavedBatch>)
    requires Mirrors(rows, s.batches, o.batches) && Walks(s, o) && Inv(p, s)
    ensures StateFile.Disjoint(rows) <==> Untangled(s.batches)
  {
    hide Inv, StateFile.Active;
    if StateFile.Disjoint(rows) {
      forall b, c, m | b in s.batches && c in s.batches && b != c && s.batches[b].state.PartiallyCompleted?
                       && !BatchTerminal(s.batches[c].state) && m in s.batches[b].members
        ensures m !in s.batches[c].members
      {
        var i :| 0 <= i < |o.batches| && o.batches[i] == b;
        var j :| 0 <= j < |o.batches| && o.batches[j] == c;
        assert rows[i] in rows && rows[j] in rows;
      }
    }
    if Untangled(s.batches) {
      forall x, y, m | x in rows && y in rows && StateFile.Active(x) && StateFile.Active(y) && m in x.members && m in y.members
        ensures x.id == y.id
      {
        var i :| 0 <= i < |rows| && rows[i] == x;
        var j :| 0 <= j < |rows| && rows[j] == y;
        OneHome(p, s, o.batches[i], o.batches[j], m);
      }
    }
  }

  /** Two unfinished batches that share a member: one of them is partially completed. */
  lemma OneHome(p: BatchPolicy, s: State, b: Id, c: Id, m: Id)
    requires Inv(p, s) && b in s.batches && c in s.batches && m in s.batches[b].members && m in s.batches[c].members
    requires !BatchTerminal(s.batches[b].state) && !BatchTerminal(s.batches[c].state)
    ensures b == c || s.batches[b].state.PartiallyCompleted? || s.batches[c].state.PartiallyCompleted?
  {
    hide WideInv, Housing, Distinct, Queued, FormingExact, Ordered, Trials.TrialInv, Ledger.LedgerInv, Bounded;
    assert Numbered(s) by { WideNumbered(p, s); }
    assert b != 0 && c != 0;
    assert Home(s.requests, b, s.batches[b]) && Home(s.requests, c, s.batches[c]);
  }

  /** Saving a state of a core run and loading the file gives the saved tables exactly
      when the state is within the reader's limits, no request of a partially completed
      batch has moved on to another unfinished one, nothing has been merged, and the file
      is not too long. */
  lemma RestorableExact(p: BatchPolicy, s: State, o: Orders, ps: Listing)
    requires Inv(p, s) && Sized(s) && Walks(s, o) && StateFile.Enumerates(ps, ServedNames(s.served))
    ensures StateFile.Countable(TablesOf(s, o))
    ensures var rt := Runtime(TablesOf(s, o), ServedNames(s.served));
            StateFile.Load(StateFile.Save(rt.tables, ps)) == Some(rt)
            <==> Modest(s, o) && Untangled(s.batches) && Unmerged(s.batches) && Sizes.SavedSize(rt.tables, ps) <= StateFile.MAX_FILE
  {
    hide Inv, Sizes.SavedSize, StateFile.Load, StateFile.Save, StateFile.Enumerates, ServedNames, RequestRows, AttemptRows, BatchRows,
         StateFile.RequestsFit, StateFile.AttemptsFit, StateFile.BatchesFit, StateFile.Coherent, StateFile.LineagesReadable,
         StateFile.MapFits, Untangled, Unmerged, RequestModest, AttemptModest, BatchModest, AttemptSized, RequestSized;
    var t := TablesOf(s, o);
    TablesWritable(s, o);
    RequestsModest(s.requests, o.requests);
    AttemptsModest(s.attempts, o.attempts);
    BatchesModest(s.batches, o.batches, o.closings);
    InvCounts(p, s);
    LineagesExact(p, s.batches, o.batches, o.closings);
    CoherentExact(p, s, o);
    NamesFit(s.served);
    Sizes.SaveRoundTrip(Runtime(t, ServedNames(s.served)), ps);
  }

  lemma TablesWritable(s: State, o: Orders)
    requires Sized(s) && Walks(s, o)
    ensures StateFile.Writable(Runtime(TablesOf(s, o), ServedNames(s.served)))
  {
    hide AttemptSized, RequestSized, ServedNames;
    CountOfOrder(o.requests, s.requests.Keys);
    CountOfOrder(o.attempts, s.attempts.Keys);
    CountOfOrder(o.batches, s.batches.Keys);
    assert |s.requests| == |s.requests.Keys| && |s.attempts| == |s.attempts.Keys| && |s.batches| == |s.batches.Keys|;
    NamesFit(s.served);
  }
}
