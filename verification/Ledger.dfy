/** Conservation: the statistics counters against the records they count. */
module Ledger {
  import opened Types
  import opened Policy
  import opened Scheduler
  import opened Totals

  function InState(rs: Requests, st: RequestState): set<Id> {
    set r | r in rs && rs[r].state == st
  }

  /** Work of a set of requests, summed without bounds. */
  ghost function WorkOf(rs: Requests, ids: set<Id>): nat {
    if ids == {} then 0 else
    var r :| r in ids;
    (if r in rs then rs[r].meta.work else 0) + WorkOf(rs, ids - {r})
  }

  ghost predicate Balanced(rs: Requests, at: Attempts, t: Stats) {
    && t.submitted == |rs|
    && |at| == t.submitted + t.retried
    && t.cancelled == |InState(rs, RequestState.Cancelled)|
    && t.expired == |InState(rs, RequestState.Expired)|
    && t.completed == |InState(rs, RequestState.Completed)|
    && t.totalWork == Wrap64(WorkOf(rs, InState(rs, RequestState.Completed)))
  }

  ghost predicate LedgerInv(s: State) { Balanced(s.requests, s.attempts, s.stats) }

  lemma NothingBalanced(t: Stats)
    requires t.submitted == t.retried == t.cancelled == t.expired == t.completed == t.totalWork == 0
    ensures Balanced(map[], map[], t)
  {
    hide Wrap64, InState;
    var none: Requests := map[];
    NothingCounted(none, RequestState.Cancelled);
    NothingCounted(none, RequestState.Expired);
    NothingCounted(none, RequestState.Completed);
    assert WorkOf(none, {}) == 0;
    assert Wrap64(0) == 0 by { ZeroWraps(); }
  }

  lemma NothingCounted(rs: Requests, st: RequestState)
    requires rs == map[]
    ensures InState(rs, st) == {}
  {
  }

  lemma ZeroWraps()
    ensures Wrap64(0) == 0
  {
  }

  lemma {:induction false} WorkAdd(rs: Requests, ids: set<Id>, r: Id)
    requires r !in ids && r in rs
    ensures WorkOf(rs, ids + {r}) == WorkOf(rs, ids) + rs[r].meta.work
  {
    var all := ids + {r};
    var z :| z in all && WorkOf(rs, all) == (if z in rs then rs[z].meta.work else 0) + WorkOf(rs, all - {z});
    if z == r {
      assert all - {r} == ids;
    } else {
      assert all - {z} == (ids - {z}) + {r};
      WorkAdd(rs, ids - {z}, r);
      WorkTake(rs, ids, z);
    }
  }

  lemma {:induction false} WorkTake(rs: Requests, ids: set<Id>, z: Id)
    requires z in ids
    ensures WorkOf(rs, ids) == (if z in rs then rs[z].meta.work else 0) + WorkOf(rs, ids - {z})
  {
    var y :| y in ids && WorkOf(rs, ids) == (if y in rs then rs[y].meta.work else 0) + WorkOf(rs, ids - {y});
    if y != z {
      WorkTake(rs, ids - {y}, z);
      WorkTake(rs, ids - {z}, y);
      assert ids - {y} - {z} == ids - {z} - {y};
    }
  }

  lemma {:induction false} WorkFrame(rs: Requests, rs': Requests, ids: set<Id>)
    requires forall r :: r in ids ==> r in rs && r in rs' && rs'[r].meta == rs[r].meta
    ensures WorkOf(rs, ids) == WorkOf(rs', ids)
  {
    if ids != {} {
      var r :| r in ids;
      WorkTake(rs, ids, r);
      WorkTake(rs', ids, r);
      WorkFrame(rs, rs', ids - {r});
    }
  }

  predicate Counted(st: RequestState) { st.Cancelled? || st.Expired? || st.Completed? }

  predicate SameCount(q: Request, q': Request) {
    q'.meta == q.meta && (q'.state == q.state || (!Counted(q.state) && !Counted(q'.state)))
  }

  /** Requests change without entering or leaving a counted state. */
  lemma LedgerFrame(rs: Requests, rs': Requests, at: Attempts, t: Stats)
    requires Balanced(rs, at, t) && rs'.Keys == rs.Keys
    requires forall r :: r in rs ==> SameCount(rs[r], rs'[r])
    ensures Balanced(rs', at, t)
  {
    forall st | Counted(st) ensures InState(rs', st) == InState(rs, st) {
      forall r | r in rs ensures rs'[r].state == st <==> rs[r].state == st { assert SameCount(rs[r], rs'[r]); }
    }
    assert |rs'| == |rs'.Keys| && |rs| == |rs.Keys|;
    forall r | r in rs ensures rs'[r].meta == rs[r].meta { assert SameCount(rs[r], rs'[r]); }
    WorkFrame(rs, rs', InState(rs, RequestState.Completed));
  }

  /** What one request entering state `st` adds to the counters. */
  function Credit(t: Stats, st: RequestState, work: U64): Stats {
    if st.Cancelled? then t.(cancelled := t.cancelled + 1)
    else if st.Expired? then t.(expired := t.expired + 1)
    else if st.Completed? then t.(completed := t.completed + 1, totalWork := Add64(t.totalWork, work))
    else t
  }

  lemma InStateUpdate(rs: Requests, r: Id, q: Request, st: RequestState)
    requires r in rs ==> rs[r].state != st
    ensures InState(rs[r := q], st) == if q.state == st then InState(rs, st) + {r} else InState(rs, st)
    ensures r !in InState(rs, st)
  {
  }

  predicate SameTotals(t: Stats, t': Stats) {
    && t'.submitted == t.submitted && t'.retried == t.retried && t'.cancelled == t.cancelled
    && t'.expired == t.expired && t'.completed == t.completed && t'.totalWork == t.totalWork
  }

  lemma WorkCredit(rs: Requests, r: Id, q: Request, t: Stats)
    requires t.totalWork == Wrap64(WorkOf(rs, InState(rs, RequestState.Completed)))
    requires r in rs ==> !rs[r].state.Completed? && q.meta == rs[r].meta
    ensures Credit(t, q.state, q.meta.work).totalWork
            == Wrap64(WorkOf(rs[r := q], InState(rs[r := q], RequestState.Completed)))
  {
    hide Wrap64;
    var rs', done := rs[r := q], InState(rs, RequestState.Completed);
    InStateUpdate(rs, r, q, RequestState.Completed);
    WorkFrame(rs, rs', done);
    if q.state.Completed? {
      WorkAdd(rs', done, r);
      CreditWraps(t, WorkOf(rs, done), q.meta.work);
    }
  }

  lemma CreditWraps(t: Stats, total: nat, work: U64)
    requires t.totalWork == Wrap64(total)
    ensures Add64(t.totalWork, work) == Wrap64(total + work)
  {
    Wrap64Add(total, work);
  }

  /** A request that was in no counted state takes a new one. */
  lemma LedgerEnd(rs: Requests, at: Attempts, at': Attempts, t: Stats, r: Id, q: Request, t': Stats)
    requires Balanced(rs, at, t) && r in rs && !Counted(rs[r].state) && q.meta == rs[r].meta
    requires at'.Keys == at.Keys && SameTotals(Credit(t, q.state, q.meta.work), t')
    ensures Balanced(rs[r := q], at', t')
  {
    hide Wrap64, WorkOf, InState;
    InStateUpdate(rs, r, q, RequestState.Cancelled);
    InStateUpdate(rs, r, q, RequestState.Expired);
    InStateUpdate(rs, r, q, RequestState.Completed);
    WorkCredit(rs, r, q, t);
    assert rs[r := q].Keys == rs.Keys;
    assert |rs[r := q]| == |rs[r := q].Keys| && |at'| == |at'.Keys| && |at| == |at.Keys|;
  }

  /** A new request, already credited, with its first attempt. */
  lemma LedgerEnroll(rs: Requests, at: Attempts, t: Stats, r: Id, q: Request, aid: Id, a: Attempt, t': Stats)
    requires Balanced(rs, at, t) && r !in rs && aid !in at && !q.state.Completed?
    requires SameTotals(Credit(t.(submitted := t.submitted + 1), q.state, q.meta.work), t')
    ensures Balanced(rs[r := q], at[aid := a], t')
  {
    hide Wrap64, WorkOf, InState;
    InStateUpdate(rs, r, q, RequestState.Cancelled);
    InStateUpdate(rs, r, q, RequestState.Expired);
    InStateUpdate(rs, r, q, RequestState.Completed);
    WorkCredit(rs, r, q, t);
  }

  /** A further attempt for a request in no counted state. */
  lemma LedgerRequeue(rs: Requests, at: Attempts, t: Stats, r: Id, q: Request, aid: Id, a: Attempt)
    requires Balanced(rs, at, t) && r in rs && SameCount(rs[r], q) && aid !in at
    ensures Balanced(rs[r := q], at[aid := a], t.(retried := t.retried + 1))
  {
    LedgerFrame(rs, rs[r := q], at, t);
  }
}
