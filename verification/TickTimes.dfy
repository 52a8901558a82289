/** What a tick promises about time: no forming batch is left overdue, and no
    batch is sealed with an expired member. */
module TickTimes {
  import opened Types
  import opened Policy
  import opened Lists
  import opened Scheduler
  import opened Totals
  import opened Wide
  import opened Placement
  import opened Core
  import opened Invariant
  import opened Filling
  import opened Ticking
  import opened FairFill
  import Trials
  import Ledger
  import Evolution
  import Fairness

  // ---- the allowed wait is a minimum ----

  /** The limits that bind one member. */
  predicate WaitsAtMost(p: BatchPolicy, m: Metadata, now: int, w: int) {
    && (m.latency in p.classWait ==> w <= p.classWait[m.latency])
    && (HasDeadline(m.deadline) ==> w <= Remaining(m.deadline, now))
  }

  lemma {:induction false} MinWaitBinds(p: BatchPolicy, rs: Requests, members: seq<Id>, now: int)
    ensures var w := MinWait(p, rs, members, now);
            && (p.globalMaxWait > 0 ==> w <= p.globalMaxWait)
            && (forall m :: m in members && m in rs ==> WaitsAtMost(p, rs[m].meta, now, w))
  {
    hide Remaining;
    if members != [] {
      var n := |members| - 1;
      MinWaitBinds(p, rs, members[..n], now);
      forall m | m in members && m in rs ensures WaitsAtMost(p, rs[m].meta, now, MinWait(p, rs, members, now)) {
        if m != members[n] { assert m in members[..n]; }
      }
    }
  }

  lemma {:induction false} MinWaitFrame(p: BatchPolicy, rs: Requests, rs': Requests, members: seq<Id>, now: int)
    requires SameMetas(rs, rs') && rs'.Keys == rs.Keys
    ensures MinWait(p, rs, members, now) == MinWait(p, rs', members, now)
  {
    if members != [] { MinWaitFrame(p, rs, rs', members[..|members| - 1], now); }
  }

  // ---- timed batches ----

  /** The batch's allowed wait is up to date for `now`. */
  predicate Timed(p: BatchPolicy, rs: Requests, b: Batch, now: int) {
    b.allowedWait == AllowedWait(p, rs, b, now)
  }

  predicate Overdue(b: Batch, now: int) {
    b.allowedWait != NO_DEADLINE && now - b.formed >= b.allowedWait
  }

  /** The batch under a key is up to date, and waits or is about to be sealed. */
  predicate Decided(p: BatchPolicy, s: State, key: Key, seals: seq<Id>, now: int) {
    key in s.forming && s.forming[key] in s.batches ==>
      && Timed(p, s.requests, s.batches[s.forming[key]], now)
      && (s.forming[key] in seals || !Overdue(s.batches[s.forming[key]], now))
  }

  lemma DecidedLater(p: BatchPolicy, s: State, s': State, bid: Id, key: Key, seals: seq<Id>, seals': seq<Id>, now: int)
    requires Decided(p, s, key, seals, now) && OnlyBatch(s, s', bid) && SameMetas(s.requests, s'.requests)
    requires key in s.forming ==> s.forming[key] != bid
    requires forall x :: x in seals ==> x in seals'
    ensures Decided(p, s', key, seals', now)
  {
    hide SameMetas, MinWait;
    if key in s.forming && s.forming[key] in s.batches {
      MinWaitFrame(p, s.requests, s'.requests, s.batches[s.forming[key]].members, now);
    }
  }

  lemma RefillDecides(p: BatchPolicy, s: State, key: Key, now: int)
    requires Inv(p, s)
    ensures var (s', seals) := Refill(p, s, key, now); Decided(p, s', key, seals, now) && s'.forming == s.forming
  {
    hide Inv, FillBatch, Drained, AllowedWait;
    if key in s.forming {
      FormingOf(p, s, key);
      var bid := s.forming[key];
      FillBatchGood(p, s, bid, key, now);
      FillKeepsForming(p, s, bid, key, now);
      RetimeTimed(p, FillBatch(p, s, bid, key, now), bid, now);
    }
  }

  lemma RetimeTimed(p: BatchPolicy, s: State, bid: Id, now: int)
    requires bid in s.batches
    ensures var s' := Retime(p, s, bid, now); Timed(p, s'.requests, s'.batches[bid], now) && s'.forming == s.forming
  {
    hide MinWait;
  }

  lemma FillKeepsForming(p: BatchPolicy, s: State, bid: Id, key: Key, now: int)
    requires Inv(p, s) && FormingUnder(s.batches, bid, key)
    ensures FillBatch(p, s, bid, key, now).forming == s.forming
  {
    hide Inv, FillBatch;
    FillBatchGood(p, s, bid, key, now);
  }

  lemma GoodMetas(p: BatchPolicy, s: State, s': State)
    requires Good(p, s, s')
    ensures SameMetas(s.requests, s'.requests)
  {
    hide Inv, Evolution.AttemptsEvolve, Evolution.BatchesEvolve, Evolution.Life, Evolution.SameLife;
    forall r | r in s.requests ensures r in s'.requests && s'.requests[r].meta == s.requests[r].meta && s'.requests[r].key == s.requests[r].key
              && |s.requests[r].attempts| <= |s'.requests[r].attempts| {
      assert Evolution.RequestEvolves(p, s.requests[r], s'.requests[r]);
    }
  }

  lemma {:induction false} RefillAllDecides(p: BatchPolicy, s: State, keys: seq<Key>, now: int, k: Key)
    requires Inv(p, s) && k in keys
    ensures var (s', seals) := RefillAll(p, s, keys, now); Decided(p, s', k, seals, now)
    ensures RefillAll(p, s, keys, now).0.forming == s.forming
  {
    hide Inv, Refill, Decided, OnlyBatch, SameMetas;
    var n := |keys| - 1;
    var (s1, seals1) := RefillAll(p, s, keys[..n], now);
    var (s2, more) := Refill(p, s1, keys[n], now);
    RefillAllGood(p, s, keys[..n], now);
    RefillForming(p, s, keys[..n], now);
    RefillDecides(p, s1, keys[n], now);
    RefillGood(p, s1, keys[n], now);
    GoodMetas(p, s1, s2);
    if k == keys[n] {
      DecidedMore(p, s2, k, more, seals1 + more, now);
    } else {
      assert k in keys[..n];
      RefillAllDecides(p, s, keys[..n], now, k);
      if keys[n] in s1.forming {
        DistinctForming(p, s1, k, keys[n]);
        DecidedLater(p, s1, s2, s1.forming[keys[n]], k, seals1, seals1 + more, now);
      } else {
        DecidedMore(p, s2, k, seals1, seals1 + more, now);
      }
    }
  }

  lemma {:induction false} RefillForming(p: BatchPolicy, s: State, keys: seq<Key>, now: int)
    requires Inv(p, s)
    ensures RefillAll(p, s, keys, now).0.forming == s.forming
  {
    hide Inv, Refill;
    if keys != [] {
      var n := |keys| - 1;
      RefillForming(p, s, keys[..n], now);
      RefillAllGood(p, s, keys[..n], now);
      RefillDecides(p, RefillAll(p, s, keys[..n], now).0, keys[n], now);
    }
  }

  lemma DecidedMore(p: BatchPolicy, s: State, key: Key, seals: seq<Id>, seals': seq<Id>, now: int)
    requires Decided(p, s, key, seals, now) && forall x :: x in seals ==> x in seals'
    ensures Decided(p, s, key, seals', now)
  {
    hide AllowedWait;
  }

  lemma DistinctForming(p: BatchPolicy, s: State, k1: Key, k2: Key)
    requires Inv(p, s) && k1 != k2 && k2 in s.forming
    ensures k1 in s.forming ==> s.forming[k1] != s.forming[k2]
  {
    hide WideInv, Placed, Queued, Ordered, Trials.TrialInv, Ledger.LedgerInv, Bounded;
  }

  // ---- sealing and merging leave the other forming batches alone ----

  /** Every batch forming in s' was the same in s; sizes and keys are kept. */
  predicate FormingKept(s: State, s': State) {
    && (forall b :: b in s'.batches && s'.batches[b].state.Forming? ==> b in s.batches && s.batches[b] == s'.batches[b])
    && SameMetas(s.requests, s'.requests) && s'.requests.Keys == s.requests.Keys
  }

  lemma FormingKeptTrans(a: State, b: State, c: State)
    requires FormingKept(a, b) && FormingKept(b, c)
    ensures FormingKept(a, c)
  {
  }

  lemma SealKeepsForming(s: State, bid: Id)
    ensures FormingKept(s, Seal(s, bid).0)
    ensures bid in Seal(s, bid).0.batches ==> !Seal(s, bid).0.batches[bid].state.Forming?
  {
    hide Advance, SameMetas;
    WideRefl(s.requests);
    if bid in s.batches { AdvanceSame(s.requests, s.batches[bid].members, RequestState.Reserved, RequestState.Batched); }
  }

  lemma {:induction false} SealAllKeepsForming(s: State, ids: seq<Id>)
    ensures FormingKept(s, SealAll(s, ids))
    ensures forall b :: b in ids && b in SealAll(s, ids).batches ==> !SealAll(s, ids).batches[b].state.Forming?
  {
    hide Seal;
    if ids != [] {
      var n := |ids| - 1;
      var s1 := SealAll(s, ids[..n]);
      SealAllKeepsForming(s, ids[..n]);
      SealKeepsForming(s1, ids[n]);
      FormingKeptTrans(s, s1, SealAll(s, ids));
      forall b | b in ids && b in SealAll(s, ids).batches ensures !SealAll(s, ids).batches[b].state.Forming? {
        if b != ids[n] { assert b in ids[..n]; }
      }
    }
  }

  lemma MergeKeepsForming(p: BatchPolicy, s: State, aid: Id, bid: Id)
    requires Inv(p, s)
    ensures FormingKept(s, Merge(p, s, aid, bid).0)
  {
    hide WideInv, Placed, Queued, Ordered, Trials.TrialInv, Ledger.LedgerInv, Rehome, SameMetas, CanMerge, Recompute, FormingExact, Bounded;
    WideRefl(s.requests);
    if Merge(p, s, aid, bid).1.Ok? {
      MergedAreSealed(p, s, aid, bid);
      RehomeSame(s.requests, s.batches[bid].members, aid);
      MergedState(p, s, aid, bid);
    }
  }

  lemma MergedState(p: BatchPolicy, s: State, aid: Id, bid: Id)
    requires Merge(p, s, aid, bid).1.Ok? && s.batches[aid].state.Sealed?
    ensures var bs' := Merge(p, s, aid, bid).0.batches;
            bs'.Keys == s.batches.Keys && !bs'[aid].state.Forming? && !bs'[bid].state.Forming?
            && forall b :: b in s.batches && b != aid && b != bid ==> bs'[b] == s.batches[b]
  {
    hide Rehome, Tally, CanMerge;
  }

  lemma WideRefl(rs: Requests)
    ensures SameMetas(rs, rs)
  {
  }

  lemma FormingKeptRefl(s: State)
    ensures FormingKept(s, s)
  {
  }

  lemma {:induction false} MergeRunKeepsForming(p: BatchPolicy, s: State, v: seq<Id>)
    requires Inv(p, s)
    ensures FormingKept(s, MergeRun(p, s, v))
    decreases |v|
  {
    hide Inv, Merge, FormingKept;
    if |v| < 2 || s.stats.batchesMerged >= p.maxMerges { FormingKeptRefl(s); } else {
      var s1 := Merge(p, s, v[0], v[1]).0;
      MergeKeepsForming(p, s, v[0], v[1]);
      MergeGood(p, s, v[0], v[1]);
      MergeRunKeepsForming(p, s1, v[1..]);
      FormingKeptTrans(s, s1, MergeRun(p, s, v));
    }
  }

  lemma {:induction false} MergeKeysKeepsForming(p: BatchPolicy, s: State, bs: Batches, order: seq<Id>, keys: seq<Key>)
    requires Inv(p, s)
    ensures FormingKept(s, MergeKeys(p, s, bs, order, keys))
  {
    hide Inv, MergeRun, FormingKept, SealedOf;
    if keys == [] { FormingKeptRefl(s); } else {
      var n := |keys| - 1;
      var s1 := MergeKeys(p, s, bs, order, keys[..n]);
      MergeKeysKeepsForming(p, s, bs, order, keys[..n]);
      MergeKeysGood(p, s, bs, order, keys[..n]);
      MergeRunKeepsForming(p, s1, SealedOf(bs, order, keys[n]));
      FormingKeptTrans(s, s1, MergeKeys(p, s, bs, order, keys));
    }
  }

  // ---- the state just before sealing ----

  ghost function BeforeSealing(p: BatchPolicy, s: State, plan: Plan, now: int): (State, seq<Id>) {
    RefillAll(p, FormNew(p, Expire(p, s, plan.waiting, plan.placed, now), plan.newKeys, now), plan.formKeys, now)
  }

  /** The tick visits every forming batch. */
  ghost predicate VisitsAll(p: BatchPolicy, s: State, plan: Plan, now: int) {
    var s2 := FormNew(p, Expire(p, s, plan.waiting, plan.placed, now), plan.newKeys, now);
    forall k :: k in s2.forming ==> k in plan.formKeys
  }

  lemma TickEnd(p: BatchPolicy, s: State, plan: Plan, limit: U32, now: int)
    requires Inv(p, s) && Expirable(s.requests, plan.waiting) && RoomyWorkers(p, limit)
    ensures var (s3, seals) := BeforeSealing(p, s, plan, now);
            var s' := Tick(p, s, plan, limit, now);
            Inv(p, s3) && FormingKept(s3, s') && forall b :: b in seals && b in s'.batches ==> !s'.batches[b].state.Forming?
  {
    hide InvBut, Expire, FormNew, RefillAll, SealAll, MergeKeys, SplitRun, RoomyWorkers, Expirable, SameMetas;
    var s1 := Expire(p, s, plan.waiting, plan.placed, now);
    ExpireGood(p, s, plan.waiting, plan.placed, now);
    var s2 := FormNew(p, s1, plan.newKeys, now);
    FormNewGood(p, s1, plan.newKeys, now);
    var (s3, seals) := RefillAll(p, s2, plan.formKeys, now);
    RefillAllGood(p, s2, plan.formKeys, now);
    var s4 := SealAll(s3, seals);
    SealAllGood(p, s3, seals);
    SealAllKeepsForming(s3, seals);
    var s5 := MergeKeys(p, s4, s4.batches, s4.sealedOrder, plan.mergeKeys);
    MergeKeysGood(p, s4, s4.batches, s4.sealedOrder, plan.mergeKeys);
    MergeKeysKeepsForming(p, s4, s4.batches, s4.sealedOrder, plan.mergeKeys);
    FormingKeptTrans(s3, s4, s5);
    InvCounts(p, s4);
    InvCounts(p, s5);
    SplitRunIdle(p, s4, limit, 0);
    SplitRunIdle(p, s5, limit, 0);
  }

  /** A member has not yet waited as long as its class or its deadline allows. */
  predicate InTime(p: BatchPolicy, m: Metadata, now: int, waited: int) {
    && (m.latency in p.classWait && 0 <= p.classWait[m.latency] < NO_DEADLINE ==> waited < p.classWait[m.latency])
    && (HasDeadline(m.deadline) && Remaining(m.deadline, now) < NO_DEADLINE ==> waited < Remaining(m.deadline, now))
  }

  lemma WaitedIsInTime(p: BatchPolicy, rs: Requests, b: Batch, now: int, m: Id)
    requires Timed(p, rs, b, now) && !Overdue(b, now) && m in b.members && m in rs
    ensures InTime(p, rs[m].meta, now, now - b.formed)
    ensures 0 < p.globalMaxWait < NO_DEADLINE ==> now - b.formed < p.globalMaxWait
  {
    hide MinWait;
    MinWaitBinds(p, rs, b.members, now);
    assert WaitsAtMost(p, rs[m].meta, now, MinWait(p, rs, b.members, now));
  }

  lemma WaitedGlobally(p: BatchPolicy, rs: Requests, b: Batch, now: int)
    requires Timed(p, rs, b, now) && !Overdue(b, now)
    ensures 0 < p.globalMaxWait < NO_DEADLINE ==> now - b.formed < p.globalMaxWait
  {
    hide MinWait;
    MinWaitBinds(p, rs, b.members, now);
  }

  /** After a tick at `now`, a batch that is still forming has waited less than the
      global limit, less than each member's latency-class limit and less than each
      member's remaining time (where a limit is set at all). */
  lemma NoFormingIsOverdue(p: BatchPolicy, s: State, plan: Plan, limit: U32, now: int, b: Id)
    requires Inv(p, s) && Expirable(s.requests, plan.waiting) && RoomyWorkers(p, limit) && VisitsAll(p, s, plan, now)
    requires var s' := Tick(p, s, plan, limit, now); b in s'.batches && s'.batches[b].state.Forming?
    ensures var s' := Tick(p, s, plan, limit, now);
            var batch, waited := s'.batches[b], now - s'.batches[b].formed;
            && (0 < p.globalMaxWait < NO_DEADLINE ==> waited < p.globalMaxWait)
            && (forall m :: m in batch.members && m in s'.requests ==> InTime(p, s'.requests[m].meta, now, waited))
  {
    hide InvBut, Tick, BeforeSealing, VisitsAll, RoomyWorkers, Expirable, SameMetas, MinWait, Overdue, InTime;
    var (s3, seals) := BeforeSealing(p, s, plan, now);
    var s' := Tick(p, s, plan, limit, now);
    TickEnd(p, s, plan, limit, now);
    var batch := s'.batches[b];
    FormingListed(p, s3, b);
    StillDecided(p, s, plan, now, batch.key);
    MinWaitFrame(p, s3.requests, s'.requests, batch.members, now);
    WaitedGlobally(p, s'.requests, batch, now);
    forall m | m in batch.members && m in s'.requests ensures InTime(p, s'.requests[m].meta, now, now - batch.formed) {
      WaitedIsInTime(p, s'.requests, batch, now, m);
    }
  }

  lemma FormingListed(p: BatchPolicy, s: State, b: Id)
    requires Inv(p, s) && b in s.batches && s.batches[b].state.Forming?
    ensures s.batches[b].key in s.forming && s.forming[s.batches[b].key] == b
  {
    hide WideInv, Placed, Queued, Ordered, Trials.TrialInv, Ledger.LedgerInv, Bounded;
  }

  lemma StillDecided(p: BatchPolicy, s: State, plan: Plan, now: int, key: Key)
    requires Inv(p, s) && Expirable(s.requests, plan.waiting) && VisitsAll(p, s, plan, now)
    requires key in BeforeSealing(p, s, plan, now).0.forming
    ensures var (s3, seals) := BeforeSealing(p, s, plan, now); Decided(p, s3, key, seals, now)
  {
    hide Inv, Expire, FormNew, RefillAll, Decided, Expirable;
    var s1 := Expire(p, s, plan.waiting, plan.placed, now);
    ExpireGood(p, s, plan.waiting, plan.placed, now);
    var s2 := FormNew(p, s1, plan.newKeys, now);
    FormNewGood(p, s1, plan.newKeys, now);
    RefillForming(p, s2, plan.formKeys, now);
    RefillAllDecides(p, s2, plan.formKeys, now, key);
  }

  // ---- no expired member is sealed ----

  /** No forming batch holds a request whose deadline has passed. */
  predicate Fresh(rs: Requests, bs: Batches, now: int) {
    forall b, m :: b in bs && bs[b].state.Forming? && m in bs[b].members ==>
      m in rs && !Policy.Expired(rs[m].meta.deadline, now)
  }

  /** The list is part of what batch `b` held while forming, without `ids`. */
  predicate PartOf(bs: Batches, b: Id, ms: seq<Id>, ids: seq<Id>) {
    b in bs && bs[b].state.Forming? && forall m :: m in ms ==> m in bs[b].members && m !in ids
  }

  /** Forming lists only lose members, and `ids` are in none of them. */
  predicate Purged(bs: Batches, bs': Batches, ids: seq<Id>) {
    forall b :: b in bs' && bs'[b].state.Forming? ==> PartOf(bs, b, bs'[b].members, ids)
  }

  lemma FormingHome(p: BatchPolicy, s: State, b: Id, m: Id)
    requires Inv(p, s) && b in s.batches && s.batches[b].state.Forming? && m in s.batches[b].members
    ensures m in s.requests && s.requests[m].state.Reserved? && s.requests[m].batch == b
  {
    hide Sound, Keyed, IndexKnown, FormingKnown, Queued, FormingExact, Ordered, Trials.TrialInv, Ledger.LedgerInv, Housing, Distinct, Bounded;
    NoBatchZero(s);
    assert Home(s.requests, b, s.batches[b]);
  }

  lemma CancelFormingShape(p: BatchPolicy, s: State, rid: Id, now: int)
    requires rid in s.requests && s.requests[rid].batch in s.batches
    ensures var bs', bid := CancelForming(p, s, rid, now).batches, s.requests[rid].batch;
            bid in bs' && bs' == s.batches[bid := bs'[bid]] && bs'[bid].members == Without(s.batches[bid].members, rid)
            && bs'[bid].state == s.batches[bid].state
  {
    hide Tally, MinWait;
  }

  /** A cancellation changes the list of the request's own forming batch, if any. */
  lemma CancelBatches(p: BatchPolicy, s: State, rid: Id, now: int)
    ensures var bs' := Cancel(p, s, rid, now).0.batches;
            if rid in s.requests && s.requests[rid].state.Reserved? && s.requests[rid].batch in s.batches
               && s.batches[s.requests[rid].batch].state.Forming? then
              var bid := s.requests[rid].batch;
              bid in bs' && bs' == s.batches[bid := bs'[bid]] && bs'[bid].members == Without(s.batches[bid].members, rid)
              && bs'[bid].state == s.batches[bid].state
            else
              forall b :: b in bs' && bs'[b].state.Forming? ==>
                b in s.batches && s.batches[b].state.Forming? && forall m :: m in bs'[b].members ==> m in s.batches[b].members
  {
    hide CancelForming, CancelPlaced, EndWaiting, IndexRemove;
    if rid in s.requests {
      if s.requests[rid].batch in s.batches {
        CancelFormingShape(p, s, rid, now);
        CancelPlacedShape(s, rid, now);
      }
      EndWaitingShape(s, rid, now, IndexRemove(s.index, s.requests[rid].key, rid));
      EndWaitingShape(s, rid, now, s.index);
    }
  }

  lemma CancelPlacedShape(s: State, rid: Id, now: int)
    requires rid in s.requests && s.requests[rid].batch in s.batches
    ensures var bs', bid := CancelPlaced(s, rid, now).batches, s.requests[rid].batch;
            bid in bs' && bs' == s.batches[bid := bs'[bid]] && bs'[bid].members == s.batches[bid].members
            && bs'[bid].state == s.batches[bid].state
  {
  }

  lemma EndWaitingShape(s: State, rid: Id, now: int, ix: Index)
    requires rid in s.requests
    ensures EndWaiting(s.(index := ix), rid, RequestState.Cancelled, 3, now).batches == s.batches
  {
  }

  lemma CancelPurges(p: BatchPolicy, s: State, rid: Id, now: int)
    requires Inv(p, s)
    ensures Purged(s.batches, Cancel(p, s, rid, now).0.batches, [rid])
  {
    hide Inv, Cancel;
    var bs' := Cancel(p, s, rid, now).0.batches;
    CancelBatches(p, s, rid, now);
    forall b | b in s.batches && s.batches[b].state.Forming? && rid in s.batches[b].members
      ensures rid in s.requests && s.requests[rid].state.Reserved? && s.requests[rid].batch == b
    {
      FormingHome(p, s, b, rid);
    }
    forall b | b in bs' && bs'[b].state.Forming? ensures PartOf(s.batches, b, bs'[b].members, [rid]) { }
  }

  lemma PurgedTrans(a: Batches, b: Batches, c: Batches, ids: seq<Id>, x: Id)
    requires Purged(a, b, ids) && Purged(b, c, [x])
    ensures Purged(a, c, ids + [x])
  {
    forall z | z in c && c[z].state.Forming? ensures PartOf(a, z, c[z].members, ids + [x]) {
      assert PartOf(b, z, c[z].members, [x]);
      assert PartOf(a, z, b[z].members, ids);
    }
  }

  lemma {:induction false} CancelAllPurges(p: BatchPolicy, s: State, ids: seq<Id>, now: int)
    requires Inv(p, s)
    ensures Purged(s.batches, CancelAll(p, s, ids, now).batches, ids)
  {
    hide Inv, Cancel;
    if ids != [] {
      var n := |ids| - 1;
      var s1 := CancelAll(p, s, ids[..n], now);
      CancelAllPurges(p, s, ids[..n], now);
      CancelAllGood(p, s, ids[..n], now);
      CancelPurges(p, s1, ids[n], now);
      PurgedTrans(s.batches, s1.batches, CancelAll(p, s, ids, now).batches, ids[..n], ids[n]);
      assert ids == ids[..n] + [ids[n]];
    }
  }

  lemma {:induction false} ExpireWaitingBatches(s: State, ids: seq<Id>, now: int)
    ensures ExpireWaiting(s, ids, now).batches == s.batches
  {
    hide IndexRemove;
    if ids != [] { ExpireWaitingBatches(s, ids[..|ids| - 1], now); }
  }

  lemma {:induction false} ExpireWaitingForming(s: State, ids: seq<Id>, now: int)
    ensures ExpireWaiting(s, ids, now).forming == s.forming
  {
    hide IndexRemove;
    if ids != [] { ExpireWaitingForming(s, ids[..|ids| - 1], now); }
  }

  /** The expiry pass lists every expired member of a forming batch. */
  predicate FindsExpired(s: State, placed: seq<Id>, now: int) {
    forall b, m | b in s.batches && s.batches[b].state.Forming? && m in s.batches[b].members ::
      m in s.requests && Policy.Expired(s.requests[m].meta.deadline, now) ==> m in placed
  }

  lemma ExpireFresh(p: BatchPolicy, s: State, waiting: seq<Id>, placed: seq<Id>, now: int)
    requires Inv(p, s) && Expirable(s.requests, waiting) && FindsExpired(s, placed, now)
    ensures var s' := Expire(p, s, waiting, placed, now); Fresh(s'.requests, s'.batches, now)
  {
    hide Inv, ExpireWaiting, CancelAll, Expirable;
    var s1 := ExpireWaiting(s, waiting, now);
    ExpireWaitingGood(p, s, waiting, now);
    ExpireWaitingBatches(s, waiting, now);
    GoodMetas(p, s, s1);
    CancelAllPurges(p, s1, placed, now);
    var s' := CancelAll(p, s1, placed, now);
    CancelAllGood(p, s1, placed, now);
    GoodMetas(p, s1, s');
    forall b, m | b in s'.batches && s'.batches[b].state.Forming? && m in s'.batches[b].members
      ensures m in s'.requests && !Policy.Expired(s'.requests[m].meta.deadline, now)
    {
      assert PartOf(s1.batches, b, s'.batches[b].members, placed);
      FormingHome(p, s, b, m);
    }
  }

  lemma PlaceFresh(s: State, bid: Id, key: Key, pick: Id, now: int)
    requires Fresh(s.requests, s.batches, now) && bid in s.batches && pick in s.requests
    requires !Policy.Expired(s.requests[pick].meta.deadline, now)
    ensures var s' := Place(s, bid, key, pick); Fresh(s'.requests, s'.batches, now)
  {
    hide IndexRemove, Fairness.NoteWork, Policy.Expired;
    var s' := Place(s, bid, key, pick);
    forall b, m | b in s'.batches && s'.batches[b].state.Forming? && m in s'.batches[b].members
      ensures m in s'.requests && !Policy.Expired(s'.requests[m].meta.deadline, now)
    {
      if b != bid || m != pick { assert m in s.batches[b].members && s.batches[b].state.Forming?; }
    }
  }

  lemma {:induction false} FillFresh(p: BatchPolicy, s: State, bid: Id, key: Key, cands: seq<Id>, now: int)
    requires Fresh(s.requests, s.batches, now) && bid in s.batches
    ensures var s' := Fill(p, s, bid, key, cands, now); Fresh(s'.requests, s'.batches, now)
    decreases |cands|
  {
    hide Place, Pick, Admissible, Fresh;
    var pool := Pool(p, s, bid, cands, now);
    if pool != [] {
      PicksStep(p, s, bid, key, cands, now);
      var pick := Pick(p, s, pool);
      AdmissibleParts(p, s, bid, pick, now);
      PlaceFresh(s, bid, key, pick, now);
      FillFresh(p, Place(s, bid, key, pick), bid, key, Without(cands, pick), now);
      assert Fill(p, s, bid, key, cands, now) == Fill(p, Place(s, bid, key, pick), bid, key, Without(cands, pick), now);
    }
  }

  lemma ReshapeFresh(rs: Requests, bs: Batches, bid: Id, b: Batch, now: int)
    requires Fresh(rs, bs, now) && (bid in bs ==> b.members == bs[bid].members && b.state == bs[bid].state)
    requires bid !in bs ==> b.members == []
    ensures Fresh(rs, bs[bid := b], now)
  {
    hide Policy.Expired;
  }

  lemma MakeFormingFresh(p: BatchPolicy, s: State, key: Key, now: int)
    requires Fresh(s.requests, s.batches, now) && s.nextBatch !in s.batches
    ensures var s' := MakeForming(p, s, key, now); Fresh(s'.requests, s'.batches, now)
  {
    hide Fresh, Fill, AllowedWait, Earliest;
    var bid, s0 := s.nextBatch, OpenForming(s, key, now);
    ReshapeFresh(s.requests, s.batches, bid, s0.batches[bid], now);
    FillFresh(p, s0, bid, key, Bucket(s0.index, key), now);
    var s1 := FillBatch(p, s0, bid, key, now);
    var s2 := Retime(p, s1, bid, now);
    ReshapeFresh(s1.requests, s1.batches, bid, s2.batches[bid], now);
    ReshapeFresh(s2.requests, s2.batches, bid, Backdate(s2, bid, now).batches[bid], now);
  }

  lemma {:induction false} FormNewFresh(p: BatchPolicy, s: State, keys: seq<Key>, now: int)
    requires Inv(p, s) && Fresh(s.requests, s.batches, now)
    ensures var s' := FormNew(p, s, keys, now); Fresh(s'.requests, s'.batches, now)
  {
    hide Inv, Fresh, MakeForming;
    if keys != [] {
      var n := |keys| - 1;
      var s1 := FormNew(p, s, keys[..n], now);
      FormNewFresh(p, s, keys[..n], now);
      FormNewGood(p, s, keys[..n], now);
      InvFreshBatch(p, s1);
      MakeFormingFresh(p, s1, keys[n], now);
    }
  }

  lemma InvFreshBatch(p: BatchPolicy, s: State)
    requires Inv(p, s)
    ensures s.nextBatch !in s.batches
  {
  }

  lemma {:induction false} RefillAllFresh(p: BatchPolicy, s: State, keys: seq<Key>, now: int)
    requires Fresh(s.requests, s.batches, now)
    ensures var s' := RefillAll(p, s, keys, now).0; Fresh(s'.requests, s'.batches, now)
  {
    hide Fresh, Fill, AllowedWait, SealNow, Drained;
    if keys != [] {
      var n := |keys| - 1;
      var s1 := RefillAll(p, s, keys[..n], now).0;
      RefillAllFresh(p, s, keys[..n], now);
      if keys[n] in s1.forming && s1.forming[keys[n]] in s1.batches {
        var bid := s1.forming[keys[n]];
        var key := s1.batches[bid].key;
        FillFresh(p, s1, bid, key, Bucket(s1.index, key), now);
        var s2 := FillBatch(p, s1, bid, key, now);
        ReshapeFresh(s2.requests, s2.batches, bid, Retime(p, s2, bid, now).batches[bid], now);
      }
    }
  }

  /** At the moment the tick seals, no forming batch, so no batch about to be
      sealed, has a member whose deadline has passed. */
  lemma SealedAreFresh(p: BatchPolicy, s: State, plan: Plan, now: int, b: Id, m: Id)
    requires Inv(p, s) && Expirable(s.requests, plan.waiting) && FindsExpired(s, plan.placed, now)
    requires var s3 := BeforeSealing(p, s, plan, now).0;
             b in s3.batches && s3.batches[b].state.Forming? && m in s3.batches[b].members
    ensures var s3 := BeforeSealing(p, s, plan, now).0;
            m in s3.requests && !Policy.Expired(s3.requests[m].meta.deadline, now)
  {
    hide Inv, Expire, FormNew, RefillAll, Expirable, FindsExpired;
    var s1 := Expire(p, s, plan.waiting, plan.placed, now);
    ExpireGood(p, s, plan.waiting, plan.placed, now);
    ExpireFresh(p, s, plan.waiting, plan.placed, now);
    FormNewFresh(p, s1, plan.newKeys, now);
    RefillAllFresh(p, FormNew(p, s1, plan.newKeys, now), plan.formKeys, now);
  }
}
