/** When a tick seals a forming batch and when it lets it wait. */
module Sealing {
  import opened Types
  import opened Policy
  import opened Lists
  import opened Scheduler
  import opened Totals
  import opened Wide
  import opened Placement
  import opened Core
  import opened Invariant
  import opened Filling
  import opened Ticking
  import opened TickTimes
  import opened FairFill
  import Limits
  import Trials
  import Ledger
  import Evolution
  import Fairness

  // ---- the reasons for sealing ----

  /** The batch has been forming for as long as the least limit that applies to it, if
      one does. */
  ghost predicate WaitedOut(p: BatchPolicy, rs: Requests, b: Batch, now: int) {
    exists w :: Limits.Least(p, rs, b, now, w) && w != 0x7fff_ffff_ffff_ffff && now - b.formed >= w
  }

  /** The members reach one of the limits on requests, tokens and work. */
  predicate Full(b: Budget, u: Accum) {
    0 < b.maxRequests <= u.count || 0 < b.maxInput <= u.input || 0 < b.maxOutput <= u.output || 0 < b.maxWork <= u.work
  }

  /** No eligible request of this key is left. */
  predicate Exhausted(rs: Requests, key: Key) { forall r :: r in rs && rs[r].key == key ==> !rs[r].state.Eligible? }

  /** A forming batch that a tick seals. */
  ghost predicate Ripe(p: BatchPolicy, s: State, b: Id, now: int)
    requires b in s.batches
  {
    var batch, u := s.batches[b], Wrap(Usage(s.requests, s.batches[b].members));
    || WaitedOut(p, s.requests, batch, now)
    || Full(p.budget, u)
    || (Exhausted(s.requests, batch.key) && (u.count == 0 || u.count >= p.minimumPreferred))
  }

  // ---- one batch ----

  lemma DrainedIsExhausted(p: BatchPolicy, s: State, key: Key)
    requires Inv(p, s)
    ensures Drained(s, key) <==> Exhausted(s.requests, key)
  {
    hide WideInv, Placed, FormingExact, Ordered, Trials.TrialInv, Ledger.LedgerInv, Bounded;
    if key in s.index {
      assert BucketOk(s.requests, key, s.index[key]);
      var r := s.index[key][0];
      assert Waits(s.index, r, s.requests[r]) && r in Bucket(s.index, key);
    } else {
      forall r | r in s.requests && s.requests[r].key == key ensures !s.requests[r].state.Eligible? {
        assert Waits(s.index, r, s.requests[r]);
      }
    }
  }

  lemma TotalsOf(p: BatchPolicy, s: State, b: Id)
    requires Inv(p, s) && b in s.batches
    ensures s.batches[b].accum == Wrap(Usage(s.requests, s.batches[b].members))
  {
    hide Numbered, Keyed, IndexKnown, FormingKnown, CoreBut, Trials.TrialInv, Ledger.LedgerInv, Bounded, Usage, Wrap, Candidate, HeldAll;
    assert Sound(p, s.requests, s.batches[b]);
  }

  lemma OverdueIsWaitedOut(p: BatchPolicy, rs: Requests, b: Batch, now: int)
    requires b.allowedWait == AllowedWait(p, rs, b, now)
    ensures WaitedOut(p, rs, b, now) <==> b.allowedWait != NO_DEADLINE && now - b.formed >= b.allowedWait
  {
    hide AllowedWait, Limits.Least;
    Limits.AllowedWaitIsLeast(p, rs, b, now);
    forall w | Limits.Least(p, rs, b, now, w) ensures w == b.allowedWait { Limits.LeastIsUnique(p, rs, b, now, w, b.allowedWait); }
  }

  /** The judgement on a batch that has just been filled and timed. */
  lemma RefillJudges(p: BatchPolicy, s: State, key: Key, now: int)
    requires Inv(p, s) && key in s.forming
    ensures var (s', seals) := Refill(p, s, key, now);
            s.forming[key] in s'.batches && seals == if Ripe(p, s', s.forming[key], now) then [s.forming[key]] else []
  {
    hide Inv, FillBatch, Drained, AllowedWait, WaitedOut, Exhausted, Usage, Wrap, OnlyBatch;
    FormingOf(p, s, key);
    RefillGood(p, s, key, now);
    var bid, s' := s.forming[key], Refill(p, s, key, now).0;
    var s1 := FillBatch(p, s, bid, key, now);
    RetimeTimed(p, s1, bid, now);
    OverdueIsWaitedOut(p, s'.requests, s'.batches[bid], now);
    TotalsOf(p, s', bid);
    KeyStays(s, s', bid);
    DrainedIsExhausted(p, s', key);
  }

  lemma KeyStays(s: State, s': State, bid: Id)
    requires OnlyBatch(s, s', bid)
    ensures bid in s'.batches && s'.batches[bid].key == s.batches[bid].key
  {
  }

  // ---- one key does not disturb another ----

  /** Requests of other keys are left alone. */
  predicate OtherKeys(rs: Requests, rs': Requests, key: Key) {
    rs'.Keys == rs.Keys && forall r :: r in rs ==> rs'[r].key == rs[r].key && (rs[r].key != key ==> rs'[r] == rs[r])
  }

  lemma {:induction false} FillOtherKeys(p: BatchPolicy, s: State, bid: Id, key: Key, cands: seq<Id>, now: int)
    requires bid in s.batches && Ready(s.requests, key, cands)
    ensures OtherKeys(s.requests, Fill(p, s, bid, key, cands, now).requests, key)
    decreases |cands|
  {
    hide Pick, Admissible, Place, OnlyBatch;
    var pool := Pool(p, s, bid, cands, now);
    if pool != [] {
      var pick := Pick(p, s, pool);
      PlaceReady(s, bid, key, pick, cands);
      PlaceOtherKeys(s, bid, key, pick);
      FillOtherKeys(p, Place(s, bid, key, pick), bid, key, Without(cands, pick), now);
    }
  }

  lemma PlaceOtherKeys(s: State, bid: Id, key: Key, pick: Id)
    requires bid in s.batches && pick in s.requests && s.requests[pick].key == key
    ensures OtherKeys(s.requests, Place(s, bid, key, pick).requests, key)
  {
    hide IndexRemove, Fairness.NoteWork;
  }

  lemma RefillOtherKeys(p: BatchPolicy, s: State, key: Key, now: int)
    requires Inv(p, s)
    ensures OtherKeys(s.requests, Refill(p, s, key, now).0.requests, key)
  {
    hide Inv, Fill, AllowedWait, Drained, SealNow;
    if key in s.forming {
      FormingOf(p, s, key);
      BucketReady(p, s, key);
      FillOtherKeys(p, s, s.forming[key], key, Bucket(s.index, key), now);
    }
  }

  /** Refilling another batch of another key changes no judgement. */
  lemma RipeLater(p: BatchPolicy, s: State, s': State, b: Id, x: Id, key: Key, now: int)
    requires OnlyBatch(s, s', x) && b in s.batches && b != x && s.batches[b].key != key
    requires OtherKeys(s.requests, s'.requests, key) && SameMetas(s.requests, s'.requests) && AllIn(s.requests, s.batches[b].members)
    ensures b in s'.batches && (Ripe(p, s', b, now) <==> Ripe(p, s, b, now))
  {
    hide SameMetas, Usage, Wrap, Limits.Least;
    UsageFrame(s.requests, s'.requests, s.batches[b].members);
    LeastFrame(p, s.requests, s'.requests, s.batches[b], now);
    ExhaustedFrame(s.requests, s'.requests, s.batches[b].key, key);
  }

  lemma ExhaustedFrame(rs: Requests, rs': Requests, k: Key, key: Key)
    requires OtherKeys(rs, rs', key) && k != key
    ensures Exhausted(rs, k) <==> Exhausted(rs', k)
  {
  }

  lemma LeastFrame(p: BatchPolicy, rs: Requests, rs': Requests, b: Batch, now: int)
    requires SameMetas(rs, rs') && rs'.Keys == rs.Keys
    ensures forall w :: Limits.Least(p, rs, b, now, w) <==> Limits.Least(p, rs', b, now, w)
  {
    forall w ensures Limits.Least(p, rs, b, now, w) <==> Limits.Least(p, rs', b, now, w) {
      if Limits.Least(p, rs, b, now, w) { LeastKept(p, rs, rs', b, now, w); }
      if Limits.Least(p, rs', b, now, w) { LeastKept(p, rs', rs, b, now, w); }
    }
  }

  lemma LeastKept(p: BatchPolicy, rs: Requests, rs': Requests, b: Batch, now: int, w: int)
    requires rs'.Keys == rs.Keys && (forall r :: r in rs ==> rs'[r].meta == rs[r].meta) && Limits.Least(p, rs, b, now, w)
    ensures Limits.Least(p, rs', b, now, w)
  {
    forall r | r in b.members && r in rs' && Limits.Least(p, rs, b, now, w) && !(p.sealSolo && b.accum.count == 1)
      ensures Limits.Allows(p, rs'[r].meta, now, w)
    {
      assert Limits.Allows(p, rs[r].meta, now, w);
    }
    if r :| r in b.members && r in rs && Limits.Binds(p, rs[r].meta, now, w) {
      assert Limits.Binds(p, rs'[r].meta, now, w);
    }
  }

  // ---- all batches ----

  lemma MembersIn(p: BatchPolicy, s: State, b: Id)
    requires Inv(p, s) && b in s.batches
    ensures AllIn(s.requests, s.batches[b].members)
  {
    hide Numbered, Keyed, IndexKnown, FormingKnown, CoreBut, Trials.TrialInv, Ledger.LedgerInv, Bounded, Usage;
    forall m | m in s.batches[b].members ensures m in s.requests {
      assert Sound(p, s.requests, s.batches[b]) && Candidate(p, s.requests, s.batches[b].key, m);
    }
  }

  /** After all refills: exactly the ripe batches are to be sealed. */
  lemma {:induction false} RefillAllJudges(p: BatchPolicy, s: State, keys: seq<Key>, now: int, k: Key)
    requires Inv(p, s) && NoDup(keys) && k in s.forming
    ensures var (s', seals) := RefillAll(p, s, keys, now);
            && s'.forming == s.forming && s.forming[k] in s'.batches && s'.batches[s.forming[k]].key == k
            && (s.forming[k] in seals <==> k in keys && Ripe(p, s', s.forming[k], now))
  {
    hide Inv, Refill, Ripe, OnlyBatch, SameMetas, OtherKeys;
    var b := s.forming[k];
    FormingOf(p, s, k);
    if keys != [] {
      var n := |keys| - 1;
      var (s1, seals1) := RefillAll(p, s, keys[..n], now);
      var (s2, more) := Refill(p, s1, keys[n], now);
      assert NoDup(keys[..n]) && keys[n] !in keys[..n];
      RefillAllGood(p, s, keys[..n], now);
      RefillAllJudges(p, s, keys[..n], now, k);
      FormingOf(p, s1, k);
      RefillGood(p, s1, keys[n], now);
      RefillDecides(p, s1, keys[n], now);
      if keys[n] in s1.forming { RefillJudges(p, s1, keys[n], now); }
      if k == keys[n] {
        FormingOf(p, s2, k);
      } else if keys[n] in s1.forming {
        assert k in keys <==> k in keys[..n];
        DistinctForming(p, s1, k, keys[n]);
        GoodMetas(p, s1, s2);
        RefillOtherKeys(p, s1, keys[n], now);
        MembersIn(p, s1, b);
        RipeLater(p, s1, s2, b, s1.forming[keys[n]], keys[n], now);
        FormingOf(p, s2, k);
      } else {
        assert k in keys <==> k in keys[..n];
      }
    }
  }

  // ---- what happens to a forming batch after the judgement ----

  /** Forming batches outside `ids` stay as they are. */
  predicate StillForming(s: State, s': State, ids: seq<Id>) {
    forall b :: b in s.batches && s.batches[b].state.Forming? && b !in ids ==> b in s'.batches && s'.batches[b] == s.batches[b]
  }

  lemma {:induction false} SealAllForming(s: State, ids: seq<Id>)
    ensures StillForming(s, SealAll(s, ids), ids)
  {
    hide Advance;
    if ids != [] {
      var n := |ids| - 1;
      SealAllForming(s, ids[..n]);
      forall b | b !in ids ensures b !in ids[..n] && b != ids[n] { }
    }
  }

  lemma StillFormingTrans(a: State, b: State, c: State, ids: seq<Id>)
    requires StillForming(a, b, ids) && StillForming(b, c, [])
    ensures StillForming(a, c, ids)
  {
  }

  lemma StillFormingRefl(s: State)
    ensures StillForming(s, s, [])
  {
  }

  lemma MergeForming(p: BatchPolicy, s: State, a: Id, b: Id)
    requires Inv(p, s)
    ensures StillForming(s, Merge(p, s, a, b).0, [])
  {
    hide Inv, Rehome, CanMerge, Recompute;
    if Merge(p, s, a, b).1.Ok? { SealedPair(p, s, a, b); }
  }

  lemma SealedPair(p: BatchPolicy, s: State, a: Id, b: Id)
    requires Inv(p, s) && Merge(p, s, a, b).1.Ok?
    ensures s.batches[a].state.Sealed? && s.batches[b].state.Sealed?
  {
    hide WideInv, Placed, Queued, Ordered, Trials.TrialInv, Ledger.LedgerInv, Bounded, FormingExact;
    MergedAreSealed(p, s, a, b);
  }

  lemma {:induction false} MergeRunForming(p: BatchPolicy, s: State, v: seq<Id>)
    requires Inv(p, s)
    ensures StillForming(s, MergeRun(p, s, v), [])
    decreases |v|
  {
    hide Inv, Merge, StillForming, Evolution.Evolves;
    StillFormingRefl(s);
    if |v| >= 2 && s.stats.batchesMerged < p.maxMerges {
      var s1 := Merge(p, s, v[0], v[1]).0;
      MergeForming(p, s, v[0], v[1]);
      MergeGood(p, s, v[0], v[1]);
      MergeRunForming(p, s1, v[1..]);
      StillFormingTrans(s, s1, MergeRun(p, s, v), []);
    }
  }

  lemma {:induction false} MergeKeysForming(p: BatchPolicy, s: State, bs: Batches, order: seq<Id>, keys: seq<Key>)
    requires Inv(p, s)
    ensures StillForming(s, MergeKeys(p, s, bs, order, keys), [])
  {
    hide Inv, MergeRun, StillForming, SealedOf, Evolution.Evolves;
    StillFormingRefl(s);
    if keys != [] {
      var n := |keys| - 1;
      var s1 := MergeKeys(p, s, bs, order, keys[..n]);
      MergeKeysForming(p, s, bs, order, keys[..n]);
      MergeKeysGood(p, s, bs, order, keys[..n]);
      MergeRunForming(p, s1, SealedOf(bs, order, keys[n]));
      StillFormingTrans(s, s1, MergeKeys(p, s, bs, order, keys), []);
    }
  }

  lemma TickAfterwards(p: BatchPolicy, s: State, plan: Plan, limit: U32, now: int)
    requires Inv(p, s) && Expirable(s.requests, plan.waiting) && RoomyWorkers(p, limit)
    ensures var (s3, seals) := BeforeSealing(p, s, plan, now);
            var s' := Tick(p, s, plan, limit, now);
            StillForming(s3, s', seals) && Good(p, s3, s')
  {
    hide InvBut, Expire, FormNew, RefillAll, SealAll, MergeKeys, SplitRun, RoomyWorkers, Expirable, StillForming, Evolution.Evolves;
    var s1 := Expire(p, s, plan.waiting, plan.placed, now);
    ExpireGood(p, s, plan.waiting, plan.placed, now);
    var s2 := FormNew(p, s1, plan.newKeys, now);
    FormNewGood(p, s1, plan.newKeys, now);
    var (s3, seals) := RefillAll(p, s2, plan.formKeys, now);
    RefillAllGood(p, s2, plan.formKeys, now);
    var s4 := SealAll(s3, seals);
    SealAllGood(p, s3, seals);
    SealAllForming(s3, seals);
    var s5 := MergeKeys(p, s4, s4.batches, s4.sealedOrder, plan.mergeKeys);
    MergeKeysGood(p, s4, s4.batches, s4.sealedOrder, plan.mergeKeys);
    MergeKeysForming(p, s4, s4.batches, s4.sealedOrder, plan.mergeKeys);
    StillFormingRefl(s4);
    StillFormingTrans(s3, s4, s5, seals);
    GoodRefl(p, s4);
    GoodTrans(p, s3, s4, s5);
    InvCounts(p, s4);
    InvCounts(p, s5);
    SplitRunIdle(p, s4, limit, 0);
    SplitRunIdle(p, s5, limit, 0);
  }

  /** Of the batches that are forming once a tick has filled them, it seals exactly the
      ripe ones and leaves the others as they are. */
  lemma TickSealsExactly(p: BatchPolicy, s: State, plan: Plan, limit: U32, now: int, b: Id)
    requires Inv(p, s) && Expirable(s.requests, plan.waiting) && RoomyWorkers(p, limit)
    requires VisitsAll(p, s, plan, now) && NoDup(plan.formKeys)
    requires var s3 := BeforeSealing(p, s, plan, now).0; b in s3.batches && s3.batches[b].state.Forming?
    ensures var s3, s' := BeforeSealing(p, s, plan, now).0, Tick(p, s, plan, limit, now);
            && b in s'.batches && (s'.batches[b].state.Forming? <==> !Ripe(p, s3, b, now))
            && (s'.batches[b].state.Forming? ==> s'.batches[b] == s3.batches[b])
  {
    hide InvBut, Tick, Expire, FormNew, RefillAll, RoomyWorkers, Expirable, Ripe, Evolution.Evolves, SameMetas;
    var s1 := Expire(p, s, plan.waiting, plan.placed, now);
    ExpireGood(p, s, plan.waiting, plan.placed, now);
    var s2 := FormNew(p, s1, plan.newKeys, now);
    FormNewGood(p, s1, plan.newKeys, now);
    var (s3, seals) := BeforeSealing(p, s, plan, now);
    TickEnd(p, s, plan, limit, now);
    TickAfterwards(p, s, plan, limit, now);
    FormingListed(p, s3, b);
    RefillForming(p, s2, plan.formKeys, now);
    RefillAllJudges(p, s2, plan.formKeys, now, s3.batches[b].key);
    StaysThere(p, s3, Tick(p, s, plan, limit, now), b);
  }

  lemma StaysThere(p: BatchPolicy, s: State, s': State, b: Id)
    requires Good(p, s, s') && b in s.batches
    ensures b in s'.batches
  {
    hide Inv, Evolution.RequestsEvolve, Evolution.AttemptsEvolve;
  }

  /** Where solo batches are not held back, a batch with one member is sealed by the tick
      that formed it. */
  lemma SoloIsRipe(p: BatchPolicy, s: State, b: Id, now: int)
    requires b in s.batches && p.sealSolo && s.batches[b].accum.count == 1 && s.batches[b].formed <= now
    ensures Ripe(p, s, b, now)
  {
    hide Exhausted, Full;
    assert Limits.Least(p, s.requests, s.batches[b], now, 0);
  }

  /** Otherwise a batch below the preferred size and every limit waits for company, even
      when nobody else is queued, until its time is up. */
  lemma WaitsForCompany(p: BatchPolicy, s: State, b: Id, now: int)
    requires b in s.batches && !p.sealSolo && !WaitedOut(p, s.requests, s.batches[b], now)
    requires var u := Wrap(Usage(s.requests, s.batches[b].members)); !Full(p.budget, u) && 0 < u.count < p.minimumPreferred
    ensures !Ripe(p, s, b, now)
  {
  }
}
