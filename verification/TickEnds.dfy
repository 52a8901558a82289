/** What a tick may end: requests whose deadline has passed, and no others. */
module TickEnds {
  import opened Types
  import opened Policy
  import opened Lists
  import opened Scheduler
  import opened Engine
  import opened Placement
  import opened Core
  import opened Wide
  import opened Trials
  import opened Ledger
  import opened Evolution
  import opened Invariant
  import opened Ticking
  import TickTimes
  import Fairness

  /** What only a report makes of a request. */
  predicate Reported(st: RequestState) { st.Completed? || st.Failed? }

  /** Requests stay, with their deadlines; only the listed ones may have ended, and
      none by a report. */
  predicate RecordsEnd(rs: Requests, rs': Requests, ids: seq<Id>) {
    && rs'.Keys == rs.Keys
    && forall r :: r in rs ==>
         && rs'[r].meta == rs[r].meta && (Terminal(rs'[r].state) && !Terminal(rs[r].state) ==> r in ids)
         && (Reported(rs'[r].state) ==> rs'[r].state == rs[r].state)
  }

  /** The same of a whole state, in which nothing has been completed meanwhile. */
  predicate EndsOnly(s: State, s': State, ids: seq<Id>) {
    && RecordsEnd(s.requests, s'.requests, ids)
    && s'.stats.completed == s.stats.completed && s'.stats.totalWork == s.stats.totalWork
  }

  lemma EndsRefl(s: State, ids: seq<Id>)
    ensures EndsOnly(s, s, ids)
  {
  }

  lemma EndsTrans(a: State, b: State, c: State, xs: seq<Id>, ys: seq<Id>)
    requires EndsOnly(a, b, xs) && EndsOnly(b, c, ys)
    ensures EndsOnly(a, c, xs + ys)
  {
  }

  // ---- the endings ----

  lemma ExpireOneEnds(s: State, rid: Id, now: int)
    ensures EndsOnly(s, ExpireOne(s, rid, now), [rid])
  {
    hide IndexRemove, EndWaiting;
    if rid in s.requests {
      EndWaitingEnds(s.(index := IndexRemove(s.index, s.requests[rid].key, rid)), rid, RequestState.Expired, 4, now);
    }
  }

  lemma {:induction false} ExpireWaitingEnds(s: State, ids: seq<Id>, now: int)
    ensures EndsOnly(s, ExpireWaiting(s, ids, now), ids)
  {
    hide ExpireOne, EndsOnly;
    if ids == [] { EndsRefl(s, ids); } else {
      var n := |ids| - 1;
      var s1 := ExpireWaiting(s, ids[..n], now);
      ExpireWaitingEnds(s, ids[..n], now);
      ExpireOneEnds(s1, ids[n], now);
      EndsTrans(s, s1, ExpireWaiting(s, ids, now), ids[..n], [ids[n]]);
      assert ids[..n] + [ids[n]] == ids;
    }
  }

  lemma CancelEnds(p: BatchPolicy, s: State, rid: Id, now: int)
    ensures EndsOnly(s, Cancel(p, s, rid, now).0, [rid])
  {
    hide IndexRemove, EndWaiting, CancelForming, CancelPlaced;
    if rid in s.requests {
      EndWaitingEnds(s.(index := IndexRemove(s.index, s.requests[rid].key, rid)), rid, RequestState.Cancelled, 3, now);
      EndWaitingEnds(s, rid, RequestState.Cancelled, 3, now);
      if s.requests[rid].batch in s.batches {
        CancelFormingEnds(p, s, rid, now);
        CancelPlacedEnds(s, rid, now);
      }
    }
  }

  lemma EndWaitingEnds(s: State, rid: Id, st: RequestState, outcome: U8, now: int)
    requires rid in s.requests && !Reported(st)
    ensures EndsOnly(s, EndWaiting(s, rid, st, outcome, now), [rid])
  {
    hide SetAttempt;
  }

  lemma CancelFormingEnds(p: BatchPolicy, s: State, rid: Id, now: int)
    requires rid in s.requests && s.requests[rid].batch in s.batches
    ensures EndsOnly(s, CancelForming(p, s, rid, now), [rid])
  {
    hide SetAttempt, Shrunk;
  }

  lemma CancelPlacedEnds(s: State, rid: Id, now: int)
    requires rid in s.requests && s.requests[rid].batch in s.batches
    ensures EndsOnly(s, CancelPlaced(s, rid, now), [rid])
  {
    hide SetAttempt;
  }

  lemma {:induction false} CancelAllEnds(p: BatchPolicy, s: State, ids: seq<Id>, now: int)
    ensures EndsOnly(s, CancelAll(p, s, ids, now), ids)
  {
    hide Cancel, EndsOnly;
    if ids == [] { EndsRefl(s, ids); } else {
      var n := |ids| - 1;
      var s1 := CancelAll(p, s, ids[..n], now);
      CancelAllEnds(p, s, ids[..n], now);
      CancelEnds(p, s1, ids[n], now);
      EndsTrans(s, s1, CancelAll(p, s, ids, now), ids[..n], [ids[n]]);
      assert ids[..n] + [ids[n]] == ids;
    }
  }

  // ---- the rest ends nothing ----

  lemma NoneTrans(a: State, b: State, c: State)
    requires EndsOnly(a, b, []) && EndsOnly(b, c, [])
    ensures EndsOnly(a, c, [])
  {
  }

  lemma PlaceEnds(s: State, bid: Id, key: Key, pick: Id)
    requires bid in s.batches && pick in s.requests
    ensures EndsOnly(s, Place(s, bid, key, pick), [])
  {
    hide IndexRemove, Fairness.NoteWork, Grown;
  }

  lemma {:induction false} FillEnds(p: BatchPolicy, s: State, bid: Id, key: Key, cands: seq<Id>, now: int)
    requires bid in s.batches
    ensures EndsOnly(s, Fill(p, s, bid, key, cands, now), [])
    decreases |cands|
  {
    hide Place, Pool, Pick, EndsOnly;
    EndsRefl(s, []);
    var pool := Pool(p, s, bid, cands, now);
    if pool != [] {
      var pick := Pick(p, s, pool);
      var s1 := Place(s, bid, key, pick);
      PlaceEnds(s, bid, key, pick);
      FillEnds(p, s1, bid, key, Without(cands, pick), now);
      NoneTrans(s, s1, Fill(p, s, bid, key, cands, now));
    }
  }

  /** Batches and index are not looked at. */
  lemma EndsSame(s: State, t: State, s': State, t': State)
    requires EndsOnly(s, s', []) && t.requests == s.requests && t.stats == s.stats && t'.requests == s'.requests && t'.stats == s'.stats
    ensures EndsOnly(t, t', [])
  {
    hide RecordsEnd;
  }

  lemma MakeFormingEnds(p: BatchPolicy, s: State, key: Key, now: int)
    ensures EndsOnly(s, MakeForming(p, s, key, now), [])
  {
    hide Fill, EndsOnly, AllowedWait, Earliest, Empty;
    var s0 := OpenForming(s, key, now);
    var s1 := Fill(p, s0, s.nextBatch, key, Bucket(s0.index, key), now);
    FillEnds(p, s0, s.nextBatch, key, Bucket(s0.index, key), now);
    EndsSame(s0, s, s1, MakeForming(p, s, key, now));
  }

  lemma {:induction false} FormNewEnds(p: BatchPolicy, s: State, keys: seq<Key>, now: int)
    ensures EndsOnly(s, FormNew(p, s, keys, now), [])
  {
    hide MakeForming, EndsOnly;
    EndsRefl(s, []);
    if keys != [] {
      var n := |keys| - 1;
      var s1 := FormNew(p, s, keys[..n], now);
      FormNewEnds(p, s, keys[..n], now);
      if keys[n] !in s1.forming {
        MakeFormingEnds(p, s1, keys[n], now);
        NoneTrans(s, s1, FormNew(p, s, keys, now));
      }
    }
  }

  lemma RefillEnds(p: BatchPolicy, s: State, key: Key, now: int)
    ensures EndsOnly(s, Refill(p, s, key, now).0, [])
  {
    hide Fill, EndsOnly, AllowedWait, SealNow, Drained;
    EndsRefl(s, []);
    if key in s.forming && s.forming[key] in s.batches {
      var bid := s.forming[key];
      var s1 := Fill(p, s, bid, s.batches[bid].key, Bucket(s.index, s.batches[bid].key), now);
      FillEnds(p, s, bid, s.batches[bid].key, Bucket(s.index, s.batches[bid].key), now);
      EndsSame(s, s, s1, Refill(p, s, key, now).0);
    }
  }

  lemma {:induction false} RefillAllEnds(p: BatchPolicy, s: State, keys: seq<Key>, now: int)
    ensures EndsOnly(s, RefillAll(p, s, keys, now).0, [])
  {
    hide Refill, EndsOnly;
    EndsRefl(s, []);
    if keys != [] {
      var n := |keys| - 1;
      var s1 := RefillAll(p, s, keys[..n], now).0;
      RefillAllEnds(p, s, keys[..n], now);
      RefillEnds(p, s1, keys[n], now);
      NoneTrans(s, s1, RefillAll(p, s, keys, now).0);
    }
  }

  lemma SealEnds(s: State, bid: Id)
    ensures EndsOnly(s, Seal(s, bid).0, [])
  {
  }

  lemma {:induction false} SealAllEnds(s: State, ids: seq<Id>)
    ensures EndsOnly(s, SealAll(s, ids), [])
  {
    hide Seal, EndsOnly;
    EndsRefl(s, []);
    if ids != [] {
      var n := |ids| - 1;
      SealAllEnds(s, ids[..n]);
      SealEnds(SealAll(s, ids[..n]), ids[n]);
      NoneTrans(s, SealAll(s, ids[..n]), SealAll(s, ids));
    }
  }

  lemma MergeEnds(p: BatchPolicy, s: State, a: Id, b: Id)
    ensures EndsOnly(s, Merge(p, s, a, b).0, [])
  {
    hide Absorbed, CanMerge, Without, Redirected;
  }

  lemma {:induction false} MergeRunEnds(p: BatchPolicy, s: State, v: seq<Id>)
    ensures EndsOnly(s, MergeRun(p, s, v), [])
    decreases |v|
  {
    hide Merge, EndsOnly;
    EndsRefl(s, []);
    if |v| >= 2 && s.stats.batchesMerged < p.maxMerges {
      var s1 := Merge(p, s, v[0], v[1]).0;
      MergeEnds(p, s, v[0], v[1]);
      MergeRunEnds(p, s1, v[1..]);
      NoneTrans(s, s1, MergeRun(p, s, v));
    }
  }

  lemma {:induction false} MergeKeysEnds(p: BatchPolicy, s: State, bs: Batches, order: seq<Id>, keys: seq<Key>)
    ensures EndsOnly(s, MergeKeys(p, s, bs, order, keys), [])
  {
    hide MergeRun, SealedOf, EndsOnly;
    EndsRefl(s, []);
    if keys != [] {
      var n := |keys| - 1;
      var s1 := MergeKeys(p, s, bs, order, keys[..n]);
      MergeKeysEnds(p, s, bs, order, keys[..n]);
      MergeRunEnds(p, s1, SealedOf(bs, order, keys[n]));
      NoneTrans(s, s1, MergeKeys(p, s, bs, order, keys));
    }
  }

  lemma RehomeEnds(rs: Requests, ms: seq<Id>, to: Id)
    ensures RecordsEnd(rs, Rehome(rs, ms, to), [])
  {
  }

  lemma SplitEnds(s: State, bid: Id)
    ensures EndsOnly(s, Split(s, bid).0, [])
  {
    hide Rehome, Offspring, SplitRest, WithoutFirst, RecordsEnd;
    EndsRefl(s, []);
    if bid in s.batches {
      var ms := s.batches[bid].members;
      var rs := Rehome(s.requests, ms[|ms| / 2..], s.nextBatch);
      RehomeEnds(s.requests, ms[|ms| / 2..], s.nextBatch);
      RehomeEnds(rs, ms[..|ms| / 2], bid);
      RecordsTrans(s.requests, rs, Rehome(rs, ms[..|ms| / 2], bid));
    }
  }

  lemma RecordsTrans(a: Requests, b: Requests, c: Requests)
    requires RecordsEnd(a, b, []) && RecordsEnd(b, c, [])
    ensures RecordsEnd(a, c, [])
  {
  }

  lemma {:induction false} SplitRunEnds(s: State, limit: U32, i: nat)
    ensures EndsOnly(s, SplitRun(s, limit, i), [])
    decreases |s.sealedOrder| - i
  {
    hide Split, EndsOnly;
    EndsRefl(s, []);
    if i < |s.sealedOrder| {
      var bid := s.sealedOrder[i];
      if bid in s.batches && s.batches[bid].state.Sealed? && limit != 0 && s.batches[bid].accum.count > limit {
        var s1 := Split(s, bid).0;
        SplitOrder(s, bid);
        SplitEnds(s, bid);
        SplitRunEnds(s1, limit, i + 1);
        NoneTrans(s, s1, SplitRun(s, limit, i));
      } else {
        SplitRunEnds(s, limit, i + 1);
      }
    }
  }

  // ---- the whole tick ----

  lemma {:induction false} TickEndsOnlyListed(p: BatchPolicy, s: State, plan: Plan, limit: U32, now: int)
    ensures EndsOnly(s, Tick(p, s, plan, limit, now), plan.waiting + plan.placed)
  {
    hide ExpireWaiting, CancelAll, FormNew, RefillAll, SealAll, MergeKeys, SplitRun, EndsOnly;
    var s0 := ExpireWaiting(s, plan.waiting, now);
    ExpireWaitingEnds(s, plan.waiting, now);
    var s1 := CancelAll(p, s0, plan.placed, now);
    CancelAllEnds(p, s0, plan.placed, now);
    EndsTrans(s, s0, s1, plan.waiting, plan.placed);
    var s2 := FormNew(p, s1, plan.newKeys, now);
    FormNewEnds(p, s1, plan.newKeys, now);
    var (s3, seals) := RefillAll(p, s2, plan.formKeys, now);
    RefillAllEnds(p, s2, plan.formKeys, now);
    var s4 := SealAll(s3, seals);
    SealAllEnds(s3, seals);
    var s5 := if p.mergeEnabled then MergeKeys(p, s4, s4.batches, s4.sealedOrder, plan.mergeKeys) else s4;
    MergeKeysEnds(p, s4, s4.batches, s4.sealedOrder, plan.mergeKeys);
    EndsRefl(s4, []);
    SplitRunEnds(s5, limit, 0);
    var s6 := SplitRun(s5, limit, 0);
    NoneTrans(s1, s2, s3);
    NoneTrans(s1, s3, s4);
    NoneTrans(s1, s4, s5);
    NoneTrans(s1, s5, s6);
    var ids := plan.waiting + plan.placed;
    EndsTrans(s, s1, s6, ids, []);
    assert ids + [] == ids;
  }

  /** In any state, a tick that visits what its loops visit ends a request only if
      the request's deadline has passed. */
  lemma TickEndsOnlyLate(p: BatchPolicy, s: State, plan: Plan, limit: U32, now: int, r: Id)
    requires Observed(p, s, plan, now) && r in s.requests && !Terminal(s.requests[r].state)
    ensures var s' := Tick(p, s, plan, limit, now);
            r in s'.requests && (Terminal(s'.requests[r].state) ==> Late(s.requests, r, now))
  {
    hide Tick, ExpireWaiting, Expire, FormNew, MergeScan, BeforeMerging;
    TickEndsOnlyListed(p, s, plan, limit, now);
    ExpireWaitingEnds(s, plan.waiting, now);
    var s0 := ExpireWaiting(s, plan.waiting, now);
    if r in plan.placed { assert Late(s0.requests, r, now); }
  }

  // ---- exactly which requests a tick ends ----

  lemma CancelReserved(p: BatchPolicy, s: State, r: Id, now: int)
    requires r in s.requests && s.requests[r].state.Reserved? && Inv(p, s)
    ensures var s' := Cancel(p, s, r, now).0; r in s'.requests && Terminal(s'.requests[r].state)
  {
    hide WideInv, Queued, FormingExact, Ordered, TrialInv, LedgerInv, Bounded, Homes, Distinct, SetAttempt, Shrunk, IndexRemove;
    assert Housed(s.batches, r, s.requests[r]);
  }

  lemma StaysTerminal(p: BatchPolicy, s: State, s': State, r: Id)
    requires Evolves(p, s, s') && r in s.requests && Terminal(s.requests[r].state)
    ensures r in s'.requests && Terminal(s'.requests[r].state)
  {
    hide AttemptsEvolve, BatchesEvolve;
    assert RequestEvolves(p, s.requests[r], s'.requests[r]);
  }

  predicate ReservedOrEnded(rs: Requests, r: Id, listed: bool) {
    r in rs && (Terminal(rs[r].state) || (rs[r].state.Reserved? && !listed))
  }

  /** A listed request that was reserved ends; on the way it is reserved or ended. */
  lemma {:induction false} CancelAllReserved(p: BatchPolicy, s: State, ids: seq<Id>, now: int, r: Id)
    requires r in s.requests && s.requests[r].state.Reserved? && Inv(p, s)
    ensures ReservedOrEnded(CancelAll(p, s, ids, now).requests, r, r in ids)
  {
    hide Inv, Evolves, Cancel;
    if ids != [] {
      var n := |ids| - 1;
      var s1 := CancelAll(p, s, ids[..n], now);
      CancelAllReserved(p, s, ids[..n], now, r);
      CancelAllGood(p, s, ids[..n], now);
      CancelGood(p, s1, ids[n], now);
      if Terminal(s1.requests[r].state) {
        StaysTerminal(p, s1, CancelAll(p, s, ids, now), r);
      } else if ids[n] == r {
        CancelReserved(p, s1, r, now);
      } else {
        CancelOthers(p, s1, ids[n], now, r);
      }
    }
  }

  lemma CancelOthers(p: BatchPolicy, s: State, x: Id, now: int, r: Id)
    requires r in s.requests && r != x
    ensures var s' := Cancel(p, s, x, now).0; r in s'.requests && s'.requests[r] == s.requests[r]
  {
    hide IndexRemove, EndWaiting, CancelForming, CancelPlaced;
    if x in s.requests {
      EndingsKeepOthers(p, s, s.index, x, now, r);
      EndingsKeepOthers(p, s, IndexRemove(s.index, s.requests[x].key, x), x, now, r);
    }
  }

  lemma EndingsKeepOthers(p: BatchPolicy, s: State, ix: Index, x: Id, now: int, r: Id)
    requires x in s.requests && r in s.requests && r != x
    ensures var s' := EndWaiting(s.(index := ix), x, RequestState.Cancelled, 3, now); r in s'.requests && s'.requests[r] == s.requests[r]
    ensures s.requests[x].batch in s.batches ==>
              && r in CancelForming(p, s, x, now).requests && CancelForming(p, s, x, now).requests[r] == s.requests[r]
              && r in CancelPlaced(s, x, now).requests && CancelPlaced(s, x, now).requests[r] == s.requests[r]
  {
    hide SetAttempt, Shrunk, CountEnd;
  }

  /** Queued, or in a batch that is still forming. */
  predicate Open(q: Request) { q.state.Eligible? || q.state.Reserved? }

  lemma EndedIsOpen(p: BatchPolicy, s: State, plan: Plan, now: int, r: Id)
    requires WaitingScan(s, plan.waiting, now) && PlacedScan(ExpireWaiting(s, plan.waiting, now), plan.placed, now)
    requires r in plan.waiting + plan.placed && r in s.requests && Inv(p, s)
    ensures Open(s.requests[r])
  {
    hide WideInv, TrialInv, LedgerInv, Bounded, Ordered, Housing, Distinct, ExpireWaiting, Late, NoDup;
    TickTimes.ExpireWaitingBatches(s, plan.waiting, now);
    TickTimes.ExpireWaitingForming(s, plan.waiting, now);
    if r in plan.waiting {
      var k :| k in s.index && r in s.index[k];
      assert BucketOk(s.requests, k, s.index[k]);
      WaitsOf(s, r);
    } else {
      var s0 := ExpireWaiting(s, plan.waiting, now);
      assert FormingLists(s0, r);
      var k :| k in s0.forming && s0.forming[k] in s0.batches && r in s0.batches[s0.forming[k]].members;
      NumberedBatch(p, s, s.forming[k]);
      assert Home(s.requests, s.forming[k], s.batches[s.forming[k]]);
    }
  }

  lemma NumberedBatch(p: BatchPolicy, s: State, b: Id)
    requires Inv(p, s) && b in s.batches
    ensures b != 0
  {
    hide CoreBut, TrialInv, LedgerInv, Bounded, Keyed, AllSound, IndexKnown, FormingKnown;
  }

  /** After the two expiry passes. */
  lemma OpenLateEnds(p: BatchPolicy, s: State, plan: Plan, now: int, r: Id)
    requires WaitingScan(s, plan.waiting, now) && PlacedScan(ExpireWaiting(s, plan.waiting, now), plan.placed, now)
    requires r in s.requests && Open(s.requests[r]) && Late(s.requests, r, now) && Expirable(s.requests, plan.waiting)
    requires Inv(p, s)
    ensures var s1 := Expire(p, s, plan.waiting, plan.placed, now); r in s1.requests && Terminal(s1.requests[r].state)
  {
    hide Inv, Evolves, ExpireWaiting, CancelAll, Expirable, WaitingScan, PlacedScan, EndsOnly, Late;
    var s0 := ExpireWaiting(s, plan.waiting, now);
    ExpireWaitingGood(p, s, plan.waiting, now);
    CancelAllGood(p, s0, plan.placed, now);
    if s.requests[r].state.Eligible? { EligibleScanned(p, s, plan.waiting, now, r); }
    if Terminal(s0.requests[r].state) {
      StaysTerminal(p, s0, Expire(p, s, plan.waiting, plan.placed, now), r);
    } else {
      ExpireWaitingEnds(s, plan.waiting, now);
      LateLater(s, s0, plan.waiting, r, now);
      ReservedScanned(p, s0, plan.placed, now, r);
      CancelAllReserved(p, s0, plan.placed, now, r);
    }
  }

  lemma LateLater(s: State, s': State, ids: seq<Id>, r: Id, now: int)
    requires EndsOnly(s, s', ids) && Late(s.requests, r, now)
    ensures Late(s'.requests, r, now)
  {
  }

  lemma EligibleScanned(p: BatchPolicy, s: State, ids: seq<Id>, now: int, r: Id)
    requires WaitingScan(s, ids, now) && r in s.requests && s.requests[r].state.Eligible? && Late(s.requests, r, now) && Inv(p, s)
    ensures r in ids
  {
    hide WideInv, TrialInv, LedgerInv, Bounded, Placed, FormingExact, Ordered, Late, BucketOk;
    WaitsOf(s, r);
  }

  lemma ReservedScanned(p: BatchPolicy, s: State, ids: seq<Id>, now: int, r: Id)
    requires PlacedScan(s, ids, now) && r in s.requests && s.requests[r].state.Reserved? && Late(s.requests, r, now) && Inv(p, s)
    ensures r in ids
  {
    hide WideInv, TrialInv, LedgerInv, Bounded, Queued, Ordered, Homes, Distinct, Late;
    assert Housed(s.batches, r, s.requests[r]);
  }

  /** Once the expiry is done, the tick is a tick with nothing to expire. */
  lemma TickAfterExpiry(p: BatchPolicy, s: State, plan: Plan, limit: U32, now: int)
    ensures Tick(p, s, plan, limit, now)
            == Tick(p, Expire(p, s, plan.waiting, plan.placed, now), plan.(waiting := [], placed := []), limit, now)
  {
    hide FormNew, RefillAll, SealAll, MergeKeys, SplitRun;
    var s1 := Expire(p, s, plan.waiting, plan.placed, now);
    assert Expire(p, s1, [], [], now) == s1;
  }

  /** The live requests that ended are exactly those that were late and still open. */
  predicate EndsExactly(s: State, s': State, now: int) {
    forall r :: r in s.requests && !Terminal(s.requests[r].state) ==>
      r in s'.requests && (Terminal(s'.requests[r].state) <==> Late(s.requests, r, now) && Open(s.requests[r]))
  }

  /** The same of the two expiry passes alone. */
  lemma ExpireEndsExactly(p: BatchPolicy, s: State, waiting: seq<Id>, placed: seq<Id>, now: int)
    requires WaitingScan(s, waiting, now) && PlacedScan(ExpireWaiting(s, waiting, now), placed, now)
    requires Expirable(s.requests, waiting) && Inv(p, s)
    ensures EndsExactly(s, Expire(p, s, waiting, placed, now), now)
  {
    hide ExpireWaiting, CancelAll, Inv, WaitingScan, PlacedScan, Late, Open, Expirable;
    var plan, s0 := Plan(waiting, placed, [], [], []), ExpireWaiting(s, waiting, now);
    var s1 := Expire(p, s, waiting, placed, now);
    ExpireWaitingEnds(s, waiting, now);
    CancelAllEnds(p, s0, placed, now);
    EndsTrans(s, s0, s1, waiting, placed);
    forall r | r in s.requests && !Terminal(s.requests[r].state)
      ensures r in s1.requests && (Terminal(s1.requests[r].state) <==> Late(s.requests, r, now) && Open(s.requests[r]))
    {
      if Terminal(s1.requests[r].state) {
        EndedIsOpen(p, s, plan, now, r);
        ListedIsLate(s, waiting, placed, now, r);
      }
      if Late(s.requests, r, now) && Open(s.requests[r]) { OpenLateEnds(p, s, plan, now, r); }
    }
  }

  lemma ListedIsLate(s: State, waiting: seq<Id>, placed: seq<Id>, now: int, r: Id)
    requires WaitingScan(s, waiting, now) && PlacedScan(ExpireWaiting(s, waiting, now), placed, now)
    requires r in waiting + placed && r in s.requests
    ensures Late(s.requests, r, now)
  {
    hide ExpireWaiting;
    ExpireWaitingEnds(s, waiting, now);
    var s0 := ExpireWaiting(s, waiting, now);
    if r in placed { assert Late(s0.requests, r, now); }
  }

  lemma TickEndsAll(p: BatchPolicy, s: State, plan: Plan, limit: U32, now: int)
    requires Observed(p, s, plan, now) && RoomyWorkers(p, limit) && Expirable(s.requests, plan.waiting) && Inv(p, s)
    ensures EndsExactly(s, Tick(p, s, plan, limit, now), now)
  {
    hide Tick, Observed, RoomyWorkers, Expirable, Inv, Late, Open;
    forall r | r in s.requests && !Terminal(s.requests[r].state)
      ensures var s' := Tick(p, s, plan, limit, now);
              r in s'.requests && (Terminal(s'.requests[r].state) <==> Late(s.requests, r, now) && Open(s.requests[r]))
    {
      TickEndsExactly(p, s, plan, limit, now, r);
    }
  }

  /** In a core run a tick ends exactly the requests that are late and are queued or
      in a forming batch; sealed, dispatched and deferred ones it leaves alone. */
  lemma TickEndsExactly(p: BatchPolicy, s: State, plan: Plan, limit: U32, now: int, r: Id)
    requires Observed(p, s, plan, now) && r in s.requests && !Terminal(s.requests[r].state) && RoomyWorkers(p, limit)
    requires Expirable(s.requests, plan.waiting) && Inv(p, s)
    ensures var s' := Tick(p, s, plan, limit, now);
            && r in s'.requests
            && (Terminal(s'.requests[r].state) <==> Late(s.requests, r, now) && Open(s.requests[r]))
  {
    hide Tick, Expire, ExpireWaiting, FormNew, Inv, Evolves, WaitingScan, PlacedScan, MergeScan, BeforeMerging, RoomyWorkers, Late, Open;
    TickEndsOnlyListed(p, s, plan, limit, now);
    TickEndsOnlyLate(p, s, plan, limit, now, r);
    var s1, s' := Expire(p, s, plan.waiting, plan.placed, now), Tick(p, s, plan, limit, now);
    if Terminal(s'.requests[r].state) { EndedIsOpen(p, s, plan, now, r); }
    if Late(s.requests, r, now) && Open(s.requests[r]) {
      OpenLateEnds(p, s, plan, now, r);
      ExpireGood(p, s, plan.waiting, plan.placed, now);
      TickAfterExpiry(p, s, plan, limit, now);
      TickGood(p, s1, plan.(waiting := [], placed := []), limit, now);
      StaysTerminal(p, s1, s', r);
    }
  }
}
