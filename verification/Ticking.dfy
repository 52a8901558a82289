/** The tick keeps the invariant, whatever the iteration orders. */
module Ticking {
  import opened Types
  import opened Policy
  import opened Scheduler
  import opened Wide
  import opened Placement
  import opened Core
  import opened Trials
  import opened Ledger
  import opened Evolution
  import opened Invariant
  import opened Filling

  // ---- expiry ----

  /** Queued now, or ended meanwhile. */
  predicate Expirable(rs: Requests, ids: seq<Id>) {
    forall r :: r in ids ==> r in rs && (rs[r].inWaiting || Terminal(rs[r].state))
  }

  lemma RemoveAbsent(s: State, r: Id)
    requires Queued(s.requests, s.index) && r in s.requests && !s.requests[r].inWaiting
    ensures IndexRemove(s.index, s.requests[r].key, r) == s.index
  {
    var k := s.requests[r].key;
    if k in s.index {
      assert BucketOk(s.requests, k, s.index[k]);
      assert s.index[k := s.index[k]] == s.index;
    }
  }

  lemma ExpireOneGood(p: BatchPolicy, s: State, rid: Id, now: int)
    requires Inv(p, s) && rid in s.requests && (s.requests[rid].inWaiting || Terminal(s.requests[rid].state))
    ensures Good(p, s, ExpireOne(s, rid, now))
    ensures forall r :: r in s.requests && r != rid ==> r in ExpireOne(s, rid, now).requests && ExpireOne(s, rid, now).requests[r] == s.requests[r]
    ensures rid in ExpireOne(s, rid, now).requests && Terminal(ExpireOne(s, rid, now).requests[rid].state)
  {
    hide WideInv, Placed, FormingExact, Ordered, TrialInv, LedgerInv, Evolves, IndexRemove, Bounded;
    WaitsOf(s, rid);
    if s.requests[rid].inWaiting {
      EndWaitingGood(p, s, rid, RequestState.Expired, 4, now);
    } else {
      RemoveAbsent(s, rid);
      GoodRefl(p, s);
    }
  }

  /** Only the listed requests may have ended, and they have. */
  predicate OnlyEnded(rs: Requests, rs': Requests, ids: seq<Id>) {
    && (forall r :: r in rs ==> r in rs' && (rs'[r] == rs[r] || Terminal(rs'[r].state)))
    && (forall r :: r in ids ==> r in rs' && Terminal(rs'[r].state))
  }

  lemma {:induction false} ExpireWaitingGood(p: BatchPolicy, s: State, ids: seq<Id>, now: int)
    requires Expirable(s.requests, ids) && Inv(p, s)
    ensures Good(p, s, ExpireWaiting(s, ids, now)) && OnlyEnded(s.requests, ExpireWaiting(s, ids, now).requests, ids)
  {
    hide Inv, Evolves, ExpireOne;
    if ids == [] { GoodRefl(p, s); } else {
      var n := |ids| - 1;
      var s1, s' := ExpireWaiting(s, ids[..n], now), ExpireWaiting(s, ids, now);
      assert ids[n] in ids && forall r :: r in ids[..n] ==> r in ids;
      ExpireWaitingGood(p, s, ids[..n], now);
      ExpireOneGood(p, s1, ids[n], now);
      GoodTrans(p, s, s1, s');
      forall r | r in s.requests ensures r in s'.requests && (s'.requests[r] == s.requests[r] || Terminal(s'.requests[r].state)) {
        assert r in s1.requests;
      }
      forall r | r in ids ensures r in s'.requests && Terminal(s'.requests[r].state) {
        if r != ids[n] { assert r in ids[..n]; }
      }
    }
  }

  lemma {:induction false} CancelAllGood(p: BatchPolicy, s: State, ids: seq<Id>, now: int)
    requires Inv(p, s)
    ensures Good(p, s, CancelAll(p, s, ids, now))
  {
    hide Inv, Evolves, Cancel;
    if ids == [] { GoodRefl(p, s); } else {
      var n := |ids| - 1;
      CancelAllGood(p, s, ids[..n], now);
      CancelGood(p, CancelAll(p, s, ids[..n], now), ids[n], now);
      GoodTrans(p, s, CancelAll(p, s, ids[..n], now), CancelAll(p, s, ids, now));
    }
  }

  lemma ExpireGood(p: BatchPolicy, s: State, waiting: seq<Id>, placed: seq<Id>, now: int)
    requires Inv(p, s) && Expirable(s.requests, waiting)
    ensures Good(p, s, Expire(p, s, waiting, placed, now))
  {
    hide Inv, Evolves, ExpireWaiting, CancelAll;
    ExpireWaitingGood(p, s, waiting, now);
    var s1 := ExpireWaiting(s, waiting, now);
    CancelAllGood(p, s1, placed, now);
    GoodTrans(p, s, s1, Expire(p, s, waiting, placed, now));
  }

  // ---- forming and filling ----

  lemma MakeFormingGood(p: BatchPolicy, s: State, key: Key, now: int)
    requires Inv(p, s) && key !in s.forming
    ensures Good(p, s, MakeForming(p, s, key, now))
  {
    hide Inv, Evolves, OnlyBatch, FillBatch, Retime, Backdate;
    var bid := s.nextBatch;
    var s0 := OpenForming(s, key, now);
    OpenFormingGood(p, s, key, now);
    var s1 := FillBatch(p, s0, bid, key, now);
    FillBatchGood(p, s0, bid, key, now);
    GoodTrans(p, s, s0, s1);
    var s2 := Retime(p, s1, bid, now);
    RetimeGood(p, s1, bid, now);
    GoodTrans(p, s, s1, s2);
    OnlyBatchKnown(s1, s2, bid);
    var s3 := Backdate(s2, bid, now);
    BackdateGood(p, s2, bid, now);
    GoodTrans(p, s, s2, s3);
  }

  lemma OnlyBatchKnown(s: State, s': State, bid: Id)
    requires OnlyBatch(s, s', bid)
    ensures bid in s'.batches
  {
  }

  lemma {:induction false} FormNewGood(p: BatchPolicy, s: State, keys: seq<Key>, now: int)
    requires Inv(p, s)
    ensures Good(p, s, FormNew(p, s, keys, now))
  {
    hide Inv, Evolves, MakeForming;
    if keys == [] { GoodRefl(p, s); } else {
      var n := |keys| - 1;
      var s1 := FormNew(p, s, keys[..n], now);
      FormNewGood(p, s, keys[..n], now);
      if keys[n] !in s1.forming {
        MakeFormingGood(p, s1, keys[n], now);
        GoodTrans(p, s, s1, FormNew(p, s, keys, now));
      }
    }
  }

  lemma FormingOf(p: BatchPolicy, s: State, key: Key)
    requires Inv(p, s) && key in s.forming
    ensures FormingUnder(s.batches, s.forming[key], key)
  {
    hide WideInv, Placed, Queued, Ordered, TrialInv, LedgerInv, Bounded;
  }

  lemma RefillGood(p: BatchPolicy, s: State, key: Key, now: int)
    requires Inv(p, s)
    ensures Good(p, s, Refill(p, s, key, now).0)
    ensures key in s.forming ==> FormingUnder(s.batches, s.forming[key], key) && OnlyBatch(s, Refill(p, s, key, now).0, s.forming[key])
    ensures key !in s.forming ==> Refill(p, s, key, now) == (s, [])
  {
    hide Inv, Evolves, OnlyBatch, FillBatch, Retime, SealNow, Drained;
    if key in s.forming {
      FormingOf(p, s, key);
      var bid := s.forming[key];
      var s1 := FillBatch(p, s, bid, key, now);
      FillBatchGood(p, s, bid, key, now);
      RetimeGood(p, s1, bid, now);
      GoodTrans(p, s, s1, Retime(p, s1, bid, now));
      OnlyBatchTrans(s, s1, Retime(p, s1, bid, now), bid);
    } else { GoodRefl(p, s); }
  }

  lemma {:induction false} RefillAllGood(p: BatchPolicy, s: State, keys: seq<Key>, now: int)
    requires Inv(p, s)
    ensures Good(p, s, RefillAll(p, s, keys, now).0)
  {
    hide Inv, Evolves, Refill;
    if keys == [] { GoodRefl(p, s); } else {
      var n := |keys| - 1;
      var s1 := RefillAll(p, s, keys[..n], now).0;
      RefillAllGood(p, s, keys[..n], now);
      RefillGood(p, s1, keys[n], now);
      GoodTrans(p, s, s1, RefillAll(p, s, keys, now).0);
    }
  }

  // ---- sealing and merging ----

  lemma {:induction false} SealAllGood(p: BatchPolicy, s: State, ids: seq<Id>)
    requires Inv(p, s)
    ensures Good(p, s, SealAll(s, ids))
  {
    hide Inv, Evolves, Seal;
    if ids == [] { GoodRefl(p, s); } else {
      var n := |ids| - 1;
      SealAllGood(p, s, ids[..n]);
      SealGood(p, SealAll(s, ids[..n]), ids[n]);
      GoodTrans(p, s, SealAll(s, ids[..n]), SealAll(s, ids));
    }
  }

  lemma {:induction false} MergeRunGood(p: BatchPolicy, s: State, v: seq<Id>)
    requires Inv(p, s)
    ensures Good(p, s, MergeRun(p, s, v))
    decreases |v|
  {
    hide Inv, Evolves, Merge;
    if |v| < 2 || s.stats.batchesMerged >= p.maxMerges { GoodRefl(p, s); } else {
      var s1 := Merge(p, s, v[0], v[1]).0;
      MergeGood(p, s, v[0], v[1]);
      MergeRunGood(p, s1, v[1..]);
      GoodTrans(p, s, s1, MergeRun(p, s, v));
    }
  }

  lemma {:induction false} MergeKeysGood(p: BatchPolicy, s: State, bs: Batches, order: seq<Id>, keys: seq<Key>)
    requires Inv(p, s)
    ensures Good(p, s, MergeKeys(p, s, bs, order, keys))
  {
    hide Inv, Evolves, MergeRun, SealedOf;
    if keys == [] { GoodRefl(p, s); } else {
      var n := |keys| - 1;
      var s1 := MergeKeys(p, s, bs, order, keys[..n]);
      MergeKeysGood(p, s, bs, order, keys[..n]);
      MergeRunGood(p, s1, SealedOf(bs, order, keys[n]));
      GoodTrans(p, s, s1, MergeKeys(p, s, bs, order, keys));
    }
  }

  // ---- the automatic split ----

  /** No live worker takes fewer members than the budget already allows. */
  predicate RoomyWorkers(p: BatchPolicy, limit: U32) {
    limit == 0 || 0 < p.budget.maxRequests <= limit
  }

  /** With roomy workers the trailing loop of the tick splits nothing. */
  lemma {:induction false} SplitRunIdle(p: BatchPolicy, s: State, limit: U32, i: nat)
    requires AllCountOk(p, s.batches) && RoomyWorkers(p, limit)
    ensures SplitRun(s, limit, i) == s
    decreases |s.sealedOrder| - i
  {
    hide Split;
    if i < |s.sealedOrder| {
      var bid := s.sealedOrder[i];
      if bid in s.batches { assert CountOk(p, s.batches[bid]); }
      SplitRunIdle(p, s, limit, i + 1);
    }
  }

  lemma TickGood(p: BatchPolicy, s: State, plan: Plan, limit: U32, now: int)
    requires Inv(p, s) && Expirable(s.requests, plan.waiting) && RoomyWorkers(p, limit)
    ensures Good(p, s, Tick(p, s, plan, limit, now))
  {
    hide InvBut, Evolves, Expire, FormNew, RefillAll, SealAll, MergeKeys, SplitRun, RoomyWorkers, Expirable;
    var s1 := Expire(p, s, plan.waiting, plan.placed, now);
    ExpireGood(p, s, plan.waiting, plan.placed, now);
    var s2 := FormNew(p, s1, plan.newKeys, now);
    FormNewGood(p, s1, plan.newKeys, now);
    var s3 := RefillAll(p, s2, plan.formKeys, now).0;
    RefillAllGood(p, s2, plan.formKeys, now);
    var s4 := SealAll(s3, RefillAll(p, s2, plan.formKeys, now).1);
    SealAllGood(p, s3, RefillAll(p, s2, plan.formKeys, now).1);
    var s5 := MergeKeys(p, s4, s4.batches, s4.sealedOrder, plan.mergeKeys);
    MergeKeysGood(p, s4, s4.batches, s4.sealedOrder, plan.mergeKeys);
    GoodTrans(p, s, s1, s2);
    GoodTrans(p, s, s2, s3);
    GoodTrans(p, s, s3, s4);
    GoodTrans(p, s, s4, s5);
    InvCounts(p, s4);
    InvCounts(p, s5);
    SplitRunIdle(p, s4, limit, 0);
    SplitRunIdle(p, s5, limit, 0);
  }

  lemma InvCounts(p: BatchPolicy, s: State)
    requires Inv(p, s)
    ensures AllCountOk(p, s.batches)
  {
    hide WideInv, CoreBut, TrialInv, LedgerInv, CountOk;
  }
}
