/** Runs with everything but recovery: splits, any public retries, failing executors,
    arbitrary reports from drivers and worker limits of any size included. Accumulators stay exact, members share the batch's key,
    stamps stay, and the true totals stay within the budget until a request that
    slips past the size test is retried. */
module WideRuns {
  import opened Types
  import opened Policy
  import opened Lists
  import opened Scheduler
  import opened Totals
  import opened Wide
  import opened Core
  import opened Network
  import opened Invariant
  import Fairness
  import Filling
  import Identity

  /** The stamps that reports have to show. */
  predicate SameStamp(b: Batch, b': Batch) { b'.epoch == b.epoch && b'.generation == b.generation }

  /** What has taken in another batch has done so for good. */
  predicate StaysMerged(b: Batch, b': Batch) { b.parents != [] ==> b'.parents != [] }

  /** Batches are never dropped and never stamped again. */
  predicate BatchesLast(bs: Batches, bs': Batches) {
    forall b :: b in bs ==> b in bs' && SameStamp(bs[b], bs'[b]) && StaysMerged(bs[b], bs'[b])
  }

  /** The step keeps the invariant, every request's size and key, and all stamps. */
  predicate Kept(p: BatchPolicy, s: State, s': State) {
    WideInv(p, s') && SameMetas(s.requests, s'.requests) && BatchesLast(s.batches, s'.batches)
  }

  lemma KeptTrans(p: BatchPolicy, a: State, b: State, c: State)
    requires Kept(p, a, b) && Kept(p, b, c)
    ensures Kept(p, a, c)
  {
    hide WideInv;
  }

  /** Steps that keep lists, sizes and keys. */
  lemma KeptFrame(p: BatchPolicy, s: State, s': State)
    requires WideInv(p, s)
    requires SameMetas(s.requests, s'.requests) && s'.requests.Keys == s.requests.Keys
    requires SameLists(s.batches, s'.batches) && SubIndex(s'.index, s.index)
    requires BatchesLast(s.batches, s'.batches)
    requires s'.forming == s.forming && s'.attempts.Keys == s.attempts.Keys
    requires s'.nextRequest == s.nextRequest && s'.nextAttempt == s.nextAttempt && s'.nextBatch == s.nextBatch
    ensures Kept(p, s, s')
  {
    hide WideInv, SameMetas, SameLists, SubIndex, BatchesLast;
    WideFrame(p, s, s');
  }

  // ---- the operations one by one ----

  lemma SubmitKept(p: BatchPolicy, s: State, meta: Metadata, now: int)
    requires WideInv(p, s)
    ensures Kept(p, s, Submit(p, s, meta, now))
  {
    hide WideInv, Numbered, Submit, Admit, CountAdmission;
    SubmitWide(p, s, meta, now);
    SubmitShape(p, s, meta, now);
    WideNumbered(p, s);
    NoBatchZero(s);
  }

  lemma EndWaitingKept(p: BatchPolicy, s: State, rid: Id, st: RequestState, outcome: U8, now: int, ix: Index)
    requires WideInv(p, s) && rid in s.requests && SubIndex(ix, s.index)
    ensures Kept(p, s, EndWaiting(s.(index := ix), rid, st, outcome, now))
  {
    hide WideInv, SubIndex;
    KeptFrame(p, s, EndWaiting(s.(index := ix), rid, st, outcome, now));
  }

  lemma CancelPlacedKept(p: BatchPolicy, s: State, rid: Id, now: int)
    requires WideInv(p, s) && rid in s.requests && s.requests[rid].batch in s.batches
    ensures Kept(p, s, CancelPlaced(s, rid, now))
  {
    hide WideInv, SameLists, BatchesLast, SubIndex;
    var r := s.requests[rid];
    OneOutcome(s.batches, r.batch, rid);
    SubIndexRefl(s.index);
    SameMetasUpdate(s.requests, rid, r.(state := RequestState.Cancelled));
    KeptFrame(p, s, CancelPlaced(s, rid, now));
  }

  lemma OneOutcome(bs: Batches, b: Id, r: Id)
    requires b in bs
    ensures var bs' := bs[b := bs[b].(outcomes := bs[b].outcomes[r := 3])]; SameLists(bs, bs') && BatchesLast(bs, bs')
  {
  }

  lemma CancelKept(p: BatchPolicy, s: State, rid: Id, now: int)
    requires WideInv(p, s)
    ensures Kept(p, s, Cancel(p, s, rid, now).0)
  {
    hide WideInv, SubIndex, IndexRemove, EndWaiting, CancelForming, CancelPlaced;
    if rid in s.requests && !Terminal(s.requests[rid].state) {
      var r := s.requests[rid];
      if !InBatch(r.state) {
        IndexRemoveSub(s.index, r.key, rid);
        SubIndexRefl(s.index);
        EndWaitingKept(p, s, rid, RequestState.Cancelled, 3, now,
                       if r.inWaiting then IndexRemove(s.index, r.key, rid) else s.index);
      } else if r.batch in s.batches {
        CancelPlacedKept(p, s, rid, now);
        CancelFormingKept(p, s, rid, now);
      }
    }
  }

  lemma CancelFormingKept(p: BatchPolicy, s: State, rid: Id, now: int)
    requires WideInv(p, s) && rid in s.requests && s.requests[rid].batch in s.batches
    ensures Kept(p, s, CancelForming(p, s, rid, now))
  {
    hide WideInv, AllowedWait, Tally, DescriptorFrom, Without;
    CancelFormingWide(p, s, rid, now);
  }

  lemma ExpireOneKept(p: BatchPolicy, s: State, rid: Id, now: int)
    requires WideInv(p, s)
    ensures Kept(p, s, ExpireOne(s, rid, now))
  {
    hide WideInv, SubIndex, IndexRemove, EndWaiting;
    if rid in s.requests {
      var ix := IndexRemove(s.index, s.requests[rid].key, rid);
      IndexRemoveSub(s.index, s.requests[rid].key, rid);
      EndWaitingKept(p, s, rid, RequestState.Expired, 4, now, ix);
      KeptFrame(p, s, s.(index := ix));
    }
  }

  lemma {:induction false} ExpireWaitingKept(p: BatchPolicy, s: State, ids: seq<Id>, now: int)
    requires WideInv(p, s)
    ensures Kept(p, s, ExpireWaiting(s, ids, now))
  {
    hide WideInv, ExpireOne;
    if ids != [] {
      var n := |ids| - 1;
      ExpireWaitingKept(p, s, ids[..n], now);
      ExpireOneKept(p, ExpireWaiting(s, ids[..n], now), ids[n], now);
      KeptTrans(p, s, ExpireWaiting(s, ids[..n], now), ExpireWaiting(s, ids, now));
    }
  }

  lemma {:induction false} CancelAllKept(p: BatchPolicy, s: State, ids: seq<Id>, now: int)
    requires WideInv(p, s)
    ensures Kept(p, s, CancelAll(p, s, ids, now))
  {
    hide WideInv, Cancel;
    if ids != [] {
      var n := |ids| - 1;
      CancelAllKept(p, s, ids[..n], now);
      CancelKept(p, CancelAll(p, s, ids[..n], now), ids[n], now);
      KeptTrans(p, s, CancelAll(p, s, ids[..n], now), CancelAll(p, s, ids, now));
    }
  }

  // ---- filling ----

  predicate AllCandidates(p: BatchPolicy, rs: Requests, key: Key, cands: seq<Id>) {
    forall c :: c in cands ==> Candidate(p, rs, key, c)
  }

  lemma PlaceKept(p: BatchPolicy, s: State, bid: Id, key: Key, rid: Id, cands: seq<Id>)
    requires WideInv(p, s) && bid in s.batches && s.batches[bid].key == key && AllCandidates(p, s.requests, key, cands)
    requires rid in cands && rid in s.requests && AllowsAdd(p.budget, s.batches[bid].accum, Load(s.requests[rid].meta))
    ensures var s' := Place(s, bid, key, rid);
            && Kept(p, s, s') && bid in s'.batches && s'.batches[bid].key == key
            && AllCandidates(p, s'.requests, key, Without(cands, rid))
  {
    hide Keyed, Sound, IndexKnown, FormingKnown, IndexRemove, AllowsAdd, Oversized;
    PlaceWide(p, s, bid, key, rid);
  }

  lemma {:induction false} FillKept(p: BatchPolicy, s: State, bid: Id, key: Key, cands: seq<Id>, now: int)
    requires WideInv(p, s) && bid in s.batches && s.batches[bid].key == key && AllCandidates(p, s.requests, key, cands)
    ensures Kept(p, s, Fill(p, s, bid, key, cands, now))
    decreases |cands|
  {
    hide WideInv, Place, Pick, Admissible, AllCandidates;
    var pool := Pool(p, s, bid, cands, now);
    if pool != [] {
      forall c | c in pool ensures c in s.requests { Filling.AdmissibleParts(p, s, bid, c, now); }
      var pick := Pick(p, s, pool);
      Filling.AdmissibleParts(p, s, bid, pick, now);
      PlaceKept(p, s, bid, key, pick, cands);
      FillKept(p, Place(s, bid, key, pick), bid, key, Without(cands, pick), now);
      KeptTrans(p, s, Place(s, bid, key, pick), Fill(p, s, bid, key, cands, now));
    }
  }

  lemma FillBatchKept(p: BatchPolicy, s: State, bid: Id, key: Key, now: int)
    requires WideInv(p, s) && bid in s.batches && s.batches[bid].key == key
    ensures Kept(p, s, FillBatch(p, s, bid, key, now))
  {
    hide Keyed, Sound, FormingKnown, Fill, Candidate;
    FillKept(p, s, bid, key, Bucket(s.index, key), now);
  }

  lemma ReshapeKept(p: BatchPolicy, s: State, bid: Id, b: Batch)
    requires WideInv(p, s) && bid in s.batches
    requires b.members == s.batches[bid].members && b.accum == s.batches[bid].accum && b.key == s.batches[bid].key
    requires b.descriptor == s.batches[bid].descriptor
    requires b.epoch == s.batches[bid].epoch && b.generation == s.batches[bid].generation && b.parents == s.batches[bid].parents
    ensures Kept(p, s, s.(batches := s.batches[bid := b]))
  {
    hide WideInv;
    ReshapeWide(p, s, bid, b);
  }

  lemma OpenFormingKept(p: BatchPolicy, s: State, key: Key, now: int)
    requires WideInv(p, s)
    ensures Kept(p, s, OpenForming(s, key, now))
  {
    hide WideInv, Numbered, Empty;
    OpenFormingWide(p, s, key, now);
    WideNumbered(p, s);
    NoBatchZero(s);
  }

  lemma MakeFormingKept(p: BatchPolicy, s: State, key: Key, now: int)
    requires WideInv(p, s)
    ensures Kept(p, s, MakeForming(p, s, key, now))
  {
    hide WideInv, FillBatch, AllowedWait, Earliest, SameMetas, BatchesLast;
    var bid, s0 := s.nextBatch, OpenForming(s, key, now);
    OpenFormingKept(p, s, key, now);
    var s1 := FillBatch(p, s0, bid, key, now);
    FillBatchKept(p, s0, bid, key, now);
    var s2 := Retime(p, s1, bid, now);
    ReshapeKept(p, s1, bid, s2.batches[bid]);
    var s3 := Backdate(s2, bid, now);
    ReshapeKept(p, s2, bid, s3.batches[bid]);
    KeptTrans(p, s, s0, s1);
    KeptTrans(p, s, s1, s2);
    KeptTrans(p, s, s2, s3);
  }

  lemma {:induction false} FormNewKept(p: BatchPolicy, s: State, keys: seq<Key>, now: int)
    requires WideInv(p, s)
    ensures Kept(p, s, FormNew(p, s, keys, now))
  {
    hide WideInv, MakeForming;
    if keys != [] {
      var n := |keys| - 1;
      var s1 := FormNew(p, s, keys[..n], now);
      FormNewKept(p, s, keys[..n], now);
      MakeFormingKept(p, s1, keys[n], now);
      KeptTrans(p, s, s1, FormNew(p, s, keys, now));
    }
  }

  lemma RefillKept(p: BatchPolicy, s: State, key: Key, now: int)
    requires WideInv(p, s)
    ensures Kept(p, s, Refill(p, s, key, now).0)
  {
    hide WideInv, FillBatch, AllowedWait, SealNow, Drained;
    if key in s.forming && s.forming[key] in s.batches {
      var bid := s.forming[key];
      var s1 := FillBatch(p, s, bid, s.batches[bid].key, now);
      FillBatchKept(p, s, bid, s.batches[bid].key, now);
      var s2 := Retime(p, s1, bid, now);
      ReshapeKept(p, s1, bid, s2.batches[bid]);
      KeptTrans(p, s, s1, s2);
    }
  }

  lemma {:induction false} RefillAllKept(p: BatchPolicy, s: State, keys: seq<Key>, now: int)
    requires WideInv(p, s)
    ensures Kept(p, s, RefillAll(p, s, keys, now).0)
  {
    hide WideInv, Refill;
    if keys != [] {
      var n := |keys| - 1;
      var s1 := RefillAll(p, s, keys[..n], now).0;
      RefillAllKept(p, s, keys[..n], now);
      RefillKept(p, s1, keys[n], now);
      KeptTrans(p, s, s1, RefillAll(p, s, keys, now).0);
    }
  }

  // ---- sealing, merging, splitting, handing over ----

  lemma SealKept(p: BatchPolicy, s: State, bid: Id)
    requires WideInv(p, s)
    ensures Kept(p, s, Seal(s, bid).0)
  {
    hide WideInv, Advance, SameMetas;
    var (s', ok) := Seal(s, bid);
    AdvanceSame(s.requests, [], RequestState.Reserved, RequestState.Reserved);
    SameRefl(s.requests);
    if ok {
      AdvanceSame(s.requests, s.batches[bid].members, RequestState.Reserved, RequestState.Batched);
      StageWide(p, s, s', bid);
    }
  }

  lemma StampsRefl(bs: Batches)
    ensures BatchesLast(bs, bs)
  {
  }

  lemma SameRefl(rs: Requests)
    ensures SameMetas(rs, rs)
  {
  }

  lemma {:induction false} SealAllKept(p: BatchPolicy, s: State, ids: seq<Id>)
    requires WideInv(p, s)
    ensures Kept(p, s, SealAll(s, ids))
  {
    hide WideInv, Seal;
    if ids != [] {
      var n := |ids| - 1;
      SealAllKept(p, s, ids[..n]);
      SealKept(p, SealAll(s, ids[..n]), ids[n]);
      KeptTrans(p, s, SealAll(s, ids[..n]), SealAll(s, ids));
    }
  }

  lemma MergeKept(p: BatchPolicy, s: State, aid: Id, bid: Id)
    requires WideInv(p, s)
    ensures Kept(p, s, Merge(p, s, aid, bid).0)
  {
    hide WideInv, Rehome, SameMetas, Tally, DescriptorFrom, CanMerge;
    MergeWide(p, s, aid, bid);
    SameRefl(s.requests);
    if bid in s.batches { RehomeSame(s.requests, s.batches[bid].members, aid); }
  }

  lemma {:induction false} MergeRunKept(p: BatchPolicy, s: State, v: seq<Id>)
    requires WideInv(p, s)
    ensures Kept(p, s, MergeRun(p, s, v))
    decreases |v|
  {
    hide WideInv, Merge;
    if |v| >= 2 && s.stats.batchesMerged < p.maxMerges {
      MergeKept(p, s, v[0], v[1]);
      MergeRunKept(p, Merge(p, s, v[0], v[1]).0, v[1..]);
      KeptTrans(p, s, Merge(p, s, v[0], v[1]).0, MergeRun(p, s, v));
    }
  }

  lemma {:induction false} MergeKeysKept(p: BatchPolicy, s: State, bs: Batches, order: seq<Id>, keys: seq<Key>)
    requires WideInv(p, s)
    ensures Kept(p, s, MergeKeys(p, s, bs, order, keys))
  {
    hide WideInv, MergeRun, SealedOf;
    if keys != [] {
      var n := |keys| - 1;
      var s1 := MergeKeys(p, s, bs, order, keys[..n]);
      MergeKeysKept(p, s, bs, order, keys[..n]);
      MergeRunKept(p, s1, SealedOf(bs, order, keys[n]));
      KeptTrans(p, s, s1, MergeKeys(p, s, bs, order, keys));
    }
  }

  lemma SplitKept(p: BatchPolicy, s: State, bid: Id)
    requires WideInv(p, s)
    ensures Kept(p, s, Split(s, bid).0)
  {
    hide WideInv, Split, SameMetas, BatchesLast;
    SplitWide(p, s, bid);
    SameRefl(s.requests);
    SplitShape(s, bid);
    WideNumbered(p, s);
    SplitStamps(s, bid);
    if bid in s.batches { SplitRequestsSame(s, bid); }
  }

  lemma SplitStamps(s: State, bid: Id)
    requires Numbered(s)
    ensures BatchesLast(s.batches, Split(s, bid).0.batches)
  {
    hide SplitSealed, SplitOpen, BatchesLast, Numbered;
    StampsRefl(s.batches);
    NoBatchZero(s);
    if bid in s.batches {
      SplitSealedStamps(s, bid);
      SplitOpenStamps(s, bid);
    }
  }

  lemma SplitSealedStamps(s: State, bid: Id)
    requires bid in s.batches && s.nextBatch !in s.batches
    requires Numbered(s)
    ensures BatchesLast(s.batches, SplitSealed(s, bid).batches)
  {
    hide SplitRequests, Offspring, WithoutFirst, Tally, DescriptorFrom;
  }

  lemma SplitOpenStamps(s: State, bid: Id)
    requires bid in s.batches && s.nextBatch !in s.batches
    ensures BatchesLast(s.batches, SplitOpen(s, bid).batches)
  {
    hide SplitRequests, Offspring, Tally, DescriptorFrom;
  }

  lemma SplitShape(s: State, bid: Id)
    ensures Split(s, bid).0.requests == if bid in s.batches && Splittable(s.batches[bid]) then SplitRequests(s, bid) else s.requests
  {
    hide SplitRequests, SplitSealed, SplitOpen;
    if bid in s.batches { SplitParts(s, bid); }
  }

  lemma SplitParts(s: State, bid: Id)
    requires bid in s.batches
    ensures SplitSealed(s, bid).requests == SplitRequests(s, bid) && SplitOpen(s, bid).requests == SplitRequests(s, bid)
  {
    hide SplitRequests, Offspring, SplitRest, WithoutFirst;
  }

  lemma {:induction false} SplitRunKept(p: BatchPolicy, s: State, limit: U32, i: nat)
    requires WideInv(p, s)
    ensures Kept(p, s, SplitRun(s, limit, i))
    decreases |s.sealedOrder| - i
  {
    hide WideInv, SplitSealed, SplitOpen, SameMetas;
    SameRefl(s.requests);
    if i < |s.sealedOrder| {
      var bid := s.sealedOrder[i];
      if bid in s.batches && s.batches[bid].state.Sealed? && limit != 0 && s.batches[bid].accum.count > limit {
        SplitKept(p, s, bid);
        SplitLength(s, bid);
        SplitRunKept(p, Split(s, bid).0, limit, i + 1);
        KeptTrans(p, s, Split(s, bid).0, SplitRun(s, limit, i));
      } else {
        SplitRunKept(p, s, limit, i + 1);
      }
    }
  }

  lemma SplitLength(s: State, bid: Id)
    requires bid in s.batches && s.batches[bid].state.Sealed? && bid in s.sealedOrder
    ensures |Split(s, bid).0.sealedOrder| == |s.sealedOrder|
  {
  }

  lemma TickKept(p: BatchPolicy, s: State, plan: Plan, limit: U32, now: int)
    requires WideInv(p, s)
    ensures Kept(p, s, Tick(p, s, plan, limit, now))
  {
    hide WideInv, ExpireWaiting, CancelAll, FormNew, RefillAll, SealAll, MergeKeys, SplitRun, SameMetas;
    var s0 := ExpireWaiting(s, plan.waiting, now);
    ExpireWaitingKept(p, s, plan.waiting, now);
    var s1 := CancelAll(p, s0, plan.placed, now);
    CancelAllKept(p, s0, plan.placed, now);
    KeptTrans(p, s, s0, s1);
    var s2 := FormNew(p, s1, plan.newKeys, now);
    FormNewKept(p, s1, plan.newKeys, now);
    KeptTrans(p, s, s1, s2);
    var (s3, seals) := RefillAll(p, s2, plan.formKeys, now);
    RefillAllKept(p, s2, plan.formKeys, now);
    KeptTrans(p, s, s2, s3);
    var s4 := SealAll(s3, seals);
    SealAllKept(p, s3, seals);
    KeptTrans(p, s, s3, s4);
    var s5 := if p.mergeEnabled then MergeKeys(p, s4, s4.batches, s4.sealedOrder, plan.mergeKeys) else s4;
    MergeKeysKept(p, s4, s4.batches, s4.sealedOrder, plan.mergeKeys);
    if p.mergeEnabled { KeptTrans(p, s, s4, s5); }
    SplitRunKept(p, s5, limit, 0);
    KeptTrans(p, s, s5, SplitRun(s5, limit, 0));
  }

  lemma HandKept(p: BatchPolicy, s: State, bid: Id, worker: Id, boot: Id)
    requires WideInv(p, s) && bid in s.batches
    ensures Kept(p, s, Hand(s, bid, worker, boot))
  {
    hide WideInv, Advance, SameMetas;
    AdvanceSame(s.requests, s.batches[bid].members, RequestState.Batched, RequestState.Dispatched);
    StageWide(p, s, Hand(s, bid, worker, boot), bid);
  }

  lemma StartKept(p: BatchPolicy, s: State, bid: Id)
    requires WideInv(p, s) && bid in s.batches
    ensures Kept(p, s, Start(s, bid))
  {
    hide WideInv, Advance, SameMetas;
    AdvanceSame(s.requests, s.batches[bid].members, RequestState.Dispatched, RequestState.Running);
    StageWide(p, s, Start(s, bid), bid);
  }

  // ---- reports ----

  lemma SettleKept(p: BatchPolicy, s: State, rid: Id, aid: Id, st: RequestState, mc: MemberCompletion, now: int)
    requires WideInv(p, s) && rid in s.requests && aid in s.attempts
    ensures Kept(p, s, Settle(s, rid, aid, st, mc, now))
  {
    hide WideInv;
    KeptFrame(p, s, Settle(s, rid, aid, st, mc, now));
  }

  lemma StatsKept(p: BatchPolicy, s: State, e: State, t: Stats, o: map<U64, U64>)
    requires Kept(p, s, e)
    ensures Kept(p, s, e.(stats := t, outstanding := o))
  {
    hide WideInv;
    WideStats(p, e, t, e.served, o);
  }

  lemma RequeueKept(p: BatchPolicy, s: State, rid: Id, number: nat)
    requires WideInv(p, s) && rid in s.requests
    ensures Kept(p, s, Requeue(s, rid, number))
  {
    hide WideInv, IndexAdd;
    RequeueWide(p, s, rid, number);
  }

  lemma ApplyKept(p: BatchPolicy, s: State, rid: Id, aid: Id, mc: MemberCompletion, now: int)
    requires WideInv(p, s) && rid in s.requests && aid in s.attempts
    ensures Kept(p, s, ApplyOutcome(p, s, rid, aid, mc, now))
  {
    hide WideInv, SameMetas, BatchesLast, Settle, Requeue, CountOutcome;
    SameRefl(s.requests);
    StampsRefl(s.batches);
    var t := CountOutcome(s.stats, mc.status, s.requests[rid].meta.work);
    if mc.status > 4 {
      StatsKept(p, s, s, t, s.outstanding);
    } else {
      var e := Settle(s, rid, aid, OutcomeState(mc.status), mc, now);
      SettleKept(p, s, rid, aid, OutcomeState(mc.status), mc, now);
      SettleShape(s, rid, aid, mc, now);
      var o := if mc.status == 0 && p.fairness.enabled
               then Fairness.NoteDone(s.outstanding, s.requests[rid].meta.tenant, s.requests[rid].meta.work) else s.outstanding;
      StatsKept(p, s, e, t, o);
      var e', number := e.(stats := t, outstanding := o), s.attempts[aid].number + 1;
      if mc.status == 1 {
        RequeueKept(p, e', rid, number);
        KeptTrans(p, s, e', Requeue(e', rid, number));
      }
    }
  }

  lemma ReportOneKept(p: BatchPolicy, s: State, mc: MemberCompletion, now: int)
    requires WideInv(p, s)
    ensures Kept(p, s, ReportOne(p, s, mc, now))
  {
    hide WideInv, SameMetas, BatchesLast, ApplyOutcome;
    SameRefl(s.requests);
    StampsRefl(s.batches);
    StatsKept(p, s, s, s.stats.(stale := s.stats.stale + 1), s.outstanding);
    if mc.request in s.requests && mc.attempt in s.attempts {
      ApplyKept(p, s, mc.request, mc.attempt, mc, now);
    }
  }

  lemma {:induction false} ReportAllKept(p: BatchPolicy, s: State, ms: seq<MemberCompletion>, now: int)
    requires WideInv(p, s)
    ensures Kept(p, s, ReportAll(p, s, ms, now))
  {
    hide WideInv, ReportOne, SameMetas, BatchesLast;
    SameRefl(s.requests);
    StampsRefl(s.batches);
    if ms != [] {
      var n := |ms| - 1;
      ReportAllKept(p, s, ms[..n], now);
      var s1 := ReportAll(p, s, ms[..n], now);
      ReportOneKept(p, s1, ms[n], now);
      KeptTrans(p, s, s1, ReportAll(p, s, ms, now));
    }
  }

  lemma CompleteKept(p: BatchPolicy, s: State, c: Completion, now: int)
    requires WideInv(p, s)
    ensures Kept(p, s, Complete(p, s, c, now).0)
  {
    hide WideInv, ReportAll, SameMetas, BatchesLast, AllTerminal;
    SameRefl(s.requests);
    StampsRefl(s.batches);
    StatsKept(p, s, s, s.stats.(stale := s.stats.stale + 1), s.outstanding);
    if Authority(s, c).Ok? {
      ReportAllKept(p, s, c.members, now);
      var s1 := ReportAll(p, s, c.members, now);
      var s2 := Close(s1, c.batch);
      if c.batch in s1.batches {
        ReshapeKept(p, s1, c.batch, s2.batches[c.batch]);
        KeptTrans(p, s, s1, s1.(batches := s2.batches));
        StatsKept(p, s, s1.(batches := s2.batches), s2.stats, s1.outstanding);
      }
    }
  }

  // ---- runs ----

  datatype WideStep =
    | Plain(step: Step)
    | Splitting(batch: Id)
    | Retrying(request: Id, plan: Plan, limit: U32, now: int)
    | Failing(batch: Id, worker: Id, error: U32, message: Bytes, now: int)
    | Driving(report: Completion, now: int)

  ghost function WideAfter(p: BatchPolicy, s: State, w: WideStep): State {
    match w
    case Plain(step) => After(p, s, step)
    case Splitting(b) => Split(s, b).0
    case Retrying(r, plan, limit, now) =>
      var (s1, code) := Retry(p, s, r, now);
      if code.Ok? then Tick(p, s1, plan, limit, now) else s1
    case Failing(b, w, error, message, now) => DispatchAndFail(p, s, b, w, error, message, now).0
    case Driving(c, now) => Complete(p, s, c, now).0
  }

  /** Only what travels through the network is constrained: a reply answers a
      dispatch that was sent, a delivery hands over a reply that was made. What a
      driver connection reports is arbitrary. */
  ghost predicate WideEnabled(y: System, w: WideStep) {
    match w
    case Plain(Reply(d, c)) => d in y.dispatches && HonestReply(d, c)
    case Plain(Delivery(c, _)) => c in y.reports
    case _ => true
  }

  ghost function WideNext(p: BatchPolicy, y: System, w: WideStep): System {
    var s' := WideAfter(p, y.fabric, w);
    System(s',
           if w.Plain? && w.step.Dispatch? && PrepareDispatch(y.fabric, w.step.batch, w.step.worker, w.step.boot).1.Ok?
              && w.step.batch in s'.batches
           then y.dispatches + {ExecutionOf(s', w.step.batch)} else y.dispatches,
           if w.Plain? && w.step.Reply? then y.reports + {w.step.report} else y.reports)
  }

  ghost predicate IsWideRun(p: BatchPolicy, run: seq<System>, steps: seq<WideStep>) {
    && |run| == |steps| + 1
    && run[0] == System(INITIAL, {}, {})
    && forall i :: 0 <= i < |steps| ==> WideEnabled(run[i], steps[i]) && run[i + 1] == WideNext(p, run[i], steps[i])
  }

  /** The states that these steps lead through. */
  ghost function WidePlay(p: BatchPolicy, steps: seq<WideStep>): (run: seq<System>)
    ensures |run| == |steps| + 1
  {
    if steps == [] then [System(INITIAL, {}, {})] else
    var n := |steps| - 1;
    var run := WidePlay(p, steps[..n]);
    run + [WideNext(p, run[n], steps[n])]
  }

  lemma {:induction false} WidePlayFollows(p: BatchPolicy, steps: seq<WideStep>)
    ensures var run := WidePlay(p, steps);
            && run[0] == System(INITIAL, {}, {})
            && forall i :: 0 <= i < |steps| ==> run[i + 1] == WideNext(p, run[i], steps[i])
  {
    hide WideNext;
    if steps != [] {
      var n := |steps| - 1;
      WidePlayFollows(p, steps[..n]);
      var run, part := WidePlay(p, steps), WidePlay(p, steps[..n]);
      assert run == part + [WideNext(p, part[n], steps[n])];
      forall i | 0 <= i < |steps| ensures run[i + 1] == WideNext(p, run[i], steps[i]) {
        assert run[i] == part[i] && (i < n ==> run[i + 1] == part[i + 1] && steps[..n][i] == steps[i]);
      }
    }
  }

  /** A message bears the stamps of the batch it names. */
  predicate Bears(bs: Batches, batch: Id, generation: Id, epoch: Id) {
    batch in bs && bs[batch].generation == generation && bs[batch].epoch == epoch
  }

  ghost predicate WideSystem(p: BatchPolicy, y: System) {
    && WideInv(p, y.fabric)
    && (forall d :: d in y.dispatches ==> Bears(y.fabric.batches, d.batch, d.generation, d.epoch))
    && (forall c :: c in y.reports ==> Bears(y.fabric.batches, c.batch, c.generation, c.epoch))
  }

  lemma LocalRunKept(p: BatchPolicy, s: State, bid: Id, worker: Id, results: seq<MemberResult>, now: int)
    requires WideInv(p, s)
    ensures Kept(p, s, DispatchAndRun(p, s, bid, worker, results, now).0)
  {
    hide WideInv, Hand, Start, Complete, SameMetas, BatchesLast;
    SameRefl(s.requests);
    StampsRefl(s.batches);
    if bid in s.batches && s.batches[bid].state.Sealed? {
      var boot := if worker in s.workers then s.workers[worker].boot else 0;
      var s1 := Hand(s, bid, worker, boot);
      HandKept(p, s, bid, worker, boot);
      HandShape(s, bid, worker, boot);
      var s2 := Start(s1, bid);
      StartKept(p, s1, bid);
      HandShape(s1, bid, worker, boot);
      KeptTrans(p, s, s1, s2);
      var b := s2.batches[bid];
      var c := Completion(worker, boot, b.epoch, b.generation, bid, Successes(results));
      CompleteKept(p, s2, c, now);
      KeptTrans(p, s, s2, Complete(p, s2, c, now).0);
    }
  }

  lemma {:induction false} FailAllKept(p: BatchPolicy, s: State, ms: seq<Id>, error: U32, message: Bytes, now: int)
    requires WideInv(p, s)
    ensures Kept(p, s, FailAll(p, s, ms, error, message, now))
  {
    hide WideInv, ApplyOutcome, SameMetas, BatchesLast;
    SameRefl(s.requests);
    StampsRefl(s.batches);
    if ms != [] {
      var n := |ms| - 1;
      var s1 := FailAll(p, s, ms[..n], error, message, now);
      FailAllKept(p, s, ms[..n], error, message, now);
      if ms[n] in s1.requests && s1.requests[ms[n]].current in s1.attempts {
        var aid := s1.requests[ms[n]].current;
        ApplyKept(p, s1, ms[n], aid, MemberCompletion(ms[n], aid, 1, [], error, message), now);
        KeptTrans(p, s, s1, FailAll(p, s, ms, error, message, now));
      }
    }
  }

  lemma FailingKept(p: BatchPolicy, s: State, bid: Id, worker: Id, error: U32, message: Bytes, now: int)
    requires WideInv(p, s)
    ensures Kept(p, s, DispatchAndFail(p, s, bid, worker, error, message, now).0)
  {
    hide WideInv, Hand, Start, FailAll, SameMetas, BatchesLast;
    SameRefl(s.requests);
    StampsRefl(s.batches);
    if bid in s.batches && s.batches[bid].state.Sealed? {
      var boot := if worker in s.workers then s.workers[worker].boot else 0;
      var s1 := Hand(s, bid, worker, boot);
      HandKept(p, s, bid, worker, boot);
      HandShape(s, bid, worker, boot);
      StartKept(p, s1, bid);
      HandShape(s1, bid, worker, boot);
      var s2 := Start(s1, bid);
      KeptTrans(p, s, s1, s2);
      FailAllKept(p, s2, s2.batches[bid].members, error, message, now);
      KeptTrans(p, s, s2, FailAll(p, s2, s2.batches[bid].members, error, message, now));
    }
  }

  lemma HandShape(s: State, bid: Id, worker: Id, boot: Id)
    requires bid in s.batches
    ensures bid in Hand(s, bid, worker, boot).batches && bid in Start(s, bid).batches
  {
  }

  lemma PlainKept(p: BatchPolicy, s: State, step: Step)
    requires WideInv(p, s)
    ensures Kept(p, s, After(p, s, step))
  {
    hide WideInv, Submit, Cancel, ExpireWaiting, CancelAll, Tick, Seal, Merge, Hand, Complete, DispatchAndRun, RollEpoch, RegisterWorker, SameMetas, BatchesLast;
    SameRefl(s.requests);
    StampsRefl(s.batches);
    match step
    case Submission(meta, now) => SubmitKept(p, s, meta, now);
    case Cancellation(r, now) => CancelKept(p, s, r, now);
    case Expiry(waiting, placed, now) =>
      ExpireWaitingKept(p, s, waiting, now);
      CancelAllKept(p, ExpireWaiting(s, waiting, now), placed, now);
      KeptTrans(p, s, ExpireWaiting(s, waiting, now), Expire(p, s, waiting, placed, now));
    case TickStep(plan, limit, now) => TickKept(p, s, plan, limit, now);
    case Sealing(b) => SealKept(p, s, b);
    case Merging(a, b) => MergeKept(p, s, a, b);
    case Dispatch(b, w, boot) => if b in s.batches { HandKept(p, s, b, w, boot); }
    case Reply(_, _) =>
    case Delivery(c, now) => CompleteKept(p, s, c, now);
    case LocalRun(b, w, results, now) => LocalRunKept(p, s, b, w, results, now);
    case EpochRoll => EpochKept(p, s);
    case Registration(w, boot, maxBatch) => RegistrationKept(p, s, w, boot, maxBatch);
  }

  lemma EpochKept(p: BatchPolicy, s: State)
    requires WideInv(p, s)
    ensures Kept(p, s, RollEpoch(s))
  {
    hide Sound, Keyed, IndexKnown, FormingKnown;
  }

  lemma RegistrationKept(p: BatchPolicy, s: State, worker: Id, boot: Id, maxBatch: U32)
    requires WideInv(p, s)
    ensures Kept(p, s, RegisterWorker(s, worker, boot, maxBatch))
  {
    hide Sound, Keyed, IndexKnown, FormingKnown;
  }

  lemma RetryKept(p: BatchPolicy, s: State, r: Id, plan: Plan, limit: U32, now: int)
    requires WideInv(p, s)
    ensures Kept(p, s, WideAfter(p, s, Retrying(r, plan, limit, now)))
  {
    hide WideInv, Requeue, Tick, SameMetas, BatchesLast;
    SameRefl(s.requests);
    StampsRefl(s.batches);
    var (s1, code) := Retry(p, s, r, now);
    if code.Ok? {
      RequeueKept(p, s, r, (if s.requests[r].current in s.attempts then s.attempts[s.requests[r].current].number else 0) + 1);
      TickKept(p, s1, plan, limit, now);
      KeptTrans(p, s, s1, Tick(p, s1, plan, limit, now));
    }
  }

  lemma WideNextKept(p: BatchPolicy, y: System, w: WideStep)
    requires WideSystem(p, y) && WideEnabled(y, w)
    ensures WideSystem(p, WideNext(p, y, w)) && Kept(p, y.fabric, WideNext(p, y, w).fabric)
  {
    hide WideInv, After, Split, PrepareDispatch, Echoes, SameMetas;
    var s, y' := y.fabric, WideNext(p, y, w);
    assert Kept(p, s, y'.fabric) by {
      match w
      case Plain(step) => PlainKept(p, s, step);
      case Splitting(b) => SplitKept(p, s, b);
      case Retrying(r, plan, limit, now) => RetryKept(p, s, r, plan, limit, now);
      case Failing(b, wk, error, message, now) => FailingKept(p, s, b, wk, error, message, now);
      case Driving(c, now) => CompleteKept(p, s, c, now);
    }
    forall d | d in y'.dispatches ensures Bears(y'.fabric.batches, d.batch, d.generation, d.epoch) {
      if d in y.dispatches { assert Bears(s.batches, d.batch, d.generation, d.epoch); }
    }
    forall c | c in y'.reports ensures Bears(y'.fabric.batches, c.batch, c.generation, c.epoch) {
      if c in y.reports { assert Bears(s.batches, c.batch, c.generation, c.epoch); }
      else { assert Bears(s.batches, w.step.dispatch.batch, w.step.dispatch.generation, w.step.dispatch.epoch); }
    }
  }

  lemma {:induction false} WideRunInv(p: BatchPolicy, run: seq<System>, steps: seq<WideStep>, i: nat)
    requires IsWideRun(p, run, steps) && i < |run|
    ensures WideSystem(p, run[i])
  {
    hide WideEnabled, WideNext, WideInv;
    if i == 0 {
      InitialWide(p);
    } else {
      WideRunInv(p, run, steps, i - 1);
      assert WideEnabled(run[i - 1], steps[i - 1]) && run[(i - 1) + 1] == WideNext(p, run[i - 1], steps[i - 1]);
      WideNextKept(p, run[i - 1], steps[i - 1]);
    }
  }

  /** In every state of every run, whatever is split or retried, each batch's
      accumulator is its members' usage reduced to the field widths, all its members
      have its key, and so has the descriptor it is dispatched with. */
  lemma TotalsAndKeysHold(p: BatchPolicy, run: seq<System>, steps: seq<WideStep>, i: nat, b: Id)
    requires IsWideRun(p, run, steps) && i < |run| && b in run[i].fabric.batches
    ensures var s, batch := run[i].fabric, run[i].fabric.batches[b];
            && batch.accum == Wrap(Usage(s.requests, batch.members))
            && (forall m :: m in batch.members ==>
                  m in s.requests && s.requests[m].key == batch.key
                  && batch.key == Identity.KeyOf(s.requests[m].meta.descriptor))
            && (batch.members != [] ==> batch.key == Identity.KeyOf(batch.descriptor))
  {
    hide IsWideRun, IndexKnown, FormingKnown, Numbered, Usage, Wrap, HeldAll, Screened, Slips, Identity.KeyOf;
    WideRunInv(p, run, steps, i);
    var s := run[i].fabric;
    assert Sound(p, s.requests, s.batches[b]);
    forall m | m in s.batches[b].members ensures Candidate(p, s.requests, s.batches[b].key, m) { }
  }

  /** As long as no request that slips past the size test has been retried, the true
      usage of each batch respects every limit below 2^63 (2^31 for the count). */
  lemma BudgetsHold(p: BatchPolicy, run: seq<System>, steps: seq<WideStep>, i: nat, b: Id)
    requires IsWideRun(p, run, steps) && i < |run| && b in run[i].fabric.batches
    requires Screened(p, run[i].fabric.requests)
    ensures var s, batch := run[i].fabric, run[i].fabric.batches[b];
            && HeldAll(p.budget, Usage(s.requests, batch.members))
            && (SafeLimits(p.budget) ==> Within(p.budget, Usage(s.requests, batch.members)))
  {
    hide IsWideRun, IndexKnown, FormingKnown, Numbered, Usage, Wrap, HeldAll, Within, SafeLimits, Screened, Candidate;
    WideRunInv(p, run, steps, i);
    var s := run[i].fabric;
    assert Sound(p, s.requests, s.batches[b]);
    if SafeLimits(p.budget) { HeldIsWithin(p.budget, Usage(s.requests, s.batches[b].members)); }
  }
}
