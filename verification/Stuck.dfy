/** After an epoch roll a batch that was dispatched before stays dispatched for good, and
    none of its live members is ever completed or failed. */
module Stuck {
  import opened Types
  import opened Policy
  import opened Lists
  import opened Scheduler
  import opened Engine
  import opened Wide
  import opened Placement
  import opened Core
  import opened Trials
  import opened Ledger
  import opened Evolution
  import opened Invariant
  import opened Ticking
  import opened Network
  import opened Runs
  import opened TickEnds
  import Fairness
  import Snapshot

  /** Batches past sealing keep their state. */
  predicate Settled(s: State, s': State) {
    forall b :: b in s.batches && Progress(s.batches[b].state) >= 2 ==>
      b in s'.batches && s'.batches[b].state == s.batches[b].state
  }

  lemma SettledTrans(a: State, b: State, c: State)
    requires Settled(a, b) && Settled(b, c)
    ensures Settled(a, c)
  {
  }

  // ---- expiry and cancellation ----

  lemma {:induction false} ExpireWaitingBatches(s: State, ids: seq<Id>, now: int)
    ensures ExpireWaiting(s, ids, now).batches == s.batches
  {
    hide ExpireOne;
    if ids != [] {
      ExpireWaitingBatches(s, ids[..|ids| - 1], now);
      ExpireOneBatches(ExpireWaiting(s, ids[..|ids| - 1], now), ids[|ids| - 1], now);
    }
  }

  lemma ExpireOneBatches(s: State, r: Id, now: int)
    ensures ExpireOne(s, r, now).batches == s.batches
  {
    hide IndexRemove, EndWaiting;
    if r in s.requests {
      EndWaitingBatches(s.(index := IndexRemove(s.index, s.requests[r].key, r)), r, RequestState.Expired, 4, now);
    }
  }

  lemma CancelSettled(p: BatchPolicy, s: State, r: Id, now: int)
    ensures Settled(s, Cancel(p, s, r, now).0)
  {
    hide IndexRemove, EndWaiting, CancelForming, CancelPlaced;
    if r in s.requests {
      var ix := IndexRemove(s.index, s.requests[r].key, r);
      EndWaitingBatches(s, r, RequestState.Cancelled, 3, now);
      EndWaitingBatches(s.(index := ix), r, RequestState.Cancelled, 3, now);
      if s.requests[r].batch in s.batches { CancelBatches(p, s, r, now); }
    }
  }

  lemma EndWaitingBatches(s: State, r: Id, st: RequestState, outcome: U8, now: int)
    requires r in s.requests
    ensures EndWaiting(s, r, st, outcome, now).batches == s.batches
  {
    hide SetAttempt;
  }

  lemma CancelBatches(p: BatchPolicy, s: State, r: Id, now: int)
    requires r in s.requests && s.requests[r].batch in s.batches
    ensures Settled(s, CancelForming(p, s, r, now)) && Settled(s, CancelPlaced(s, r, now))
  {
    hide SetAttempt, Tally, DescriptorFrom, AllowedWait, Without;
  }

  lemma {:induction false} CancelAllSettled(p: BatchPolicy, s: State, ids: seq<Id>, now: int)
    ensures Settled(s, CancelAll(p, s, ids, now))
  {
    hide Cancel, Settled;
    if ids == [] { assert Settled(s, s) by { SettledRefl(s); } } else {
      var s1 := CancelAll(p, s, ids[..|ids| - 1], now);
      CancelAllSettled(p, s, ids[..|ids| - 1], now);
      CancelSettled(p, s1, ids[|ids| - 1], now);
      SettledTrans(s, s1, CancelAll(p, s, ids, now));
    }
  }

  lemma SettledRefl(s: State)
    ensures Settled(s, s)
  {
  }

  lemma ExpireSettled(p: BatchPolicy, s: State, waiting: seq<Id>, placed: seq<Id>, now: int)
    ensures Settled(s, Expire(p, s, waiting, placed, now))
  {
    hide ExpireWaiting, CancelAll;
    ExpireWaitingBatches(s, waiting, now);
    CancelAllSettled(p, ExpireWaiting(s, waiting, now), placed, now);
  }

  // ---- forming and filling ----

  lemma {:induction false} FillSettled(p: BatchPolicy, s: State, bid: Id, key: Key, cands: seq<Id>, now: int)
    requires bid in s.batches
    ensures Settled(s, Fill(p, s, bid, key, cands, now))
    decreases |cands|
  {
    hide Pick, Pool, Place, Settled;
    SettledRefl(s);
    var pool := Pool(p, s, bid, cands, now);
    if pool != [] {
      var pick := Pick(p, s, pool);
      var s1 := Place(s, bid, key, pick);
      PlaceSettled(s, bid, key, pick);
      FillSettled(p, s1, bid, key, Without(cands, pick), now);
      SettledTrans(s, s1, Fill(p, s, bid, key, cands, now));
    }
  }

  lemma PlaceSettled(s: State, bid: Id, key: Key, pick: Id)
    requires bid in s.batches && pick in s.requests
    ensures Settled(s, Place(s, bid, key, pick))
  {
    hide IndexRemove, Fairness.NoteWork;
  }

  lemma MakeFormingSettled(p: BatchPolicy, s: State, key: Key, now: int)
    requires s.nextBatch !in s.batches
    ensures Settled(s, MakeForming(p, s, key, now))
  {
    hide Fill, AllowedWait, Earliest;
    var bid, s0 := s.nextBatch, OpenForming(s, key, now);
    FillSettled(p, s0, bid, key, Bucket(s0.index, key), now);
  }

  lemma {:induction false} FormNewSettled(p: BatchPolicy, s: State, keys: seq<Key>, now: int)
    requires Inv(p, s)
    ensures Settled(s, FormNew(p, s, keys, now))
  {
    hide Inv, MakeForming, Settled, Evolves;
    SettledRefl(s);
    if keys != [] {
      var n := |keys| - 1;
      var s1 := FormNew(p, s, keys[..n], now);
      FormNewGood(p, s, keys[..n], now);
      FormNewSettled(p, s, keys[..n], now);
      SettledRefl(s1);
      assert s1.nextBatch !in s1.batches by { NextIsFree(p, s1); }
      MakeFormingSettled(p, s1, keys[n], now);
      SettledTrans(s, s1, FormNew(p, s, keys, now));
    }
  }

  lemma NextIsFree(p: BatchPolicy, s: State)
    requires Inv(p, s)
    ensures s.nextBatch !in s.batches
  {
    hide Keyed, AllSound, IndexKnown, FormingKnown, CoreBut, TrialInv, LedgerInv, Bounded;
  }

  lemma RefillSettled(p: BatchPolicy, s: State, key: Key, now: int)
    ensures Settled(s, Refill(p, s, key, now).0)
  {
    hide Fill, AllowedWait, SealNow, Drained;
    if key in s.forming && s.forming[key] in s.batches {
      var bid := s.forming[key];
      FillSettled(p, s, bid, s.batches[bid].key, Bucket(s.index, s.batches[bid].key), now);
    }
  }

  lemma {:induction false} RefillAllSettled(p: BatchPolicy, s: State, keys: seq<Key>, now: int)
    ensures Settled(s, RefillAll(p, s, keys, now).0)
  {
    hide Refill, Settled;
    SettledRefl(s);
    if keys != [] {
      var n := |keys| - 1;
      var s1 := RefillAll(p, s, keys[..n], now).0;
      RefillAllSettled(p, s, keys[..n], now);
      RefillSettled(p, s1, keys[n], now);
      SettledTrans(s, s1, RefillAll(p, s, keys, now).0);
    }
  }

  // ---- sealing and merging ----

  lemma SealSettled(s: State, bid: Id)
    ensures Settled(s, Seal(s, bid).0)
  {
    hide Advance;
  }

  lemma {:induction false} SealAllSettled(s: State, ids: seq<Id>)
    ensures Settled(s, SealAll(s, ids))
  {
    hide Seal, Settled;
    SettledRefl(s);
    if ids != [] {
      var s1 := SealAll(s, ids[..|ids| - 1]);
      SealAllSettled(s, ids[..|ids| - 1]);
      SealSettled(s1, ids[|ids| - 1]);
      SettledTrans(s, s1, SealAll(s, ids));
    }
  }

  lemma MergeSettled(p: BatchPolicy, s: State, a: Id, b: Id)
    ensures Settled(s, Merge(p, s, a, b).0)
  {
    hide Rehome, Tally, DescriptorFrom, AllowsAdd, Without, Redirected;
  }

  lemma {:induction false} MergeRunSettled(p: BatchPolicy, s: State, v: seq<Id>)
    ensures Settled(s, MergeRun(p, s, v))
    decreases |v|
  {
    hide Merge, Settled;
    SettledRefl(s);
    if |v| >= 2 && s.stats.batchesMerged < p.maxMerges {
      var s1 := Merge(p, s, v[0], v[1]).0;
      MergeSettled(p, s, v[0], v[1]);
      MergeRunSettled(p, s1, v[1..]);
      SettledTrans(s, s1, MergeRun(p, s, v));
    }
  }

  lemma {:induction false} MergeKeysSettled(p: BatchPolicy, s: State, bs: Batches, order: seq<Id>, keys: seq<Key>)
    ensures Settled(s, MergeKeys(p, s, bs, order, keys))
  {
    hide MergeRun, SealedOf, Settled;
    SettledRefl(s);
    if keys != [] {
      var n := |keys| - 1;
      var s1 := MergeKeys(p, s, bs, order, keys[..n]);
      MergeKeysSettled(p, s, bs, order, keys[..n]);
      MergeRunSettled(p, s1, SealedOf(bs, order, keys[n]));
      SettledTrans(s, s1, MergeKeys(p, s, bs, order, keys));
    }
  }

  lemma TickSettled(p: BatchPolicy, s: State, plan: Plan, limit: U32, now: int)
    requires Inv(p, s) && Expirable(s.requests, plan.waiting) && RoomyWorkers(p, limit)
    ensures Settled(s, Tick(p, s, plan, limit, now))
  {
    hide InvBut, Evolves, Expire, FormNew, RefillAll, SealAll, MergeKeys, SplitRun, RoomyWorkers, Expirable, Settled;
    var s1 := Expire(p, s, plan.waiting, plan.placed, now);
    ExpireGood(p, s, plan.waiting, plan.placed, now);
    ExpireSettled(p, s, plan.waiting, plan.placed, now);
    var s2 := FormNew(p, s1, plan.newKeys, now);
    FormNewGood(p, s1, plan.newKeys, now);
    FormNewSettled(p, s1, plan.newKeys, now);
    var (s3, seals) := RefillAll(p, s2, plan.formKeys, now);
    RefillAllGood(p, s2, plan.formKeys, now);
    RefillAllSettled(p, s2, plan.formKeys, now);
    var s4 := SealAll(s3, seals);
    SealAllGood(p, s3, seals);
    SealAllSettled(s3, seals);
    var s5 := MergeKeys(p, s4, s4.batches, s4.sealedOrder, plan.mergeKeys);
    MergeKeysGood(p, s4, s4.batches, s4.sealedOrder, plan.mergeKeys);
    MergeKeysSettled(p, s4, s4.batches, s4.sealedOrder, plan.mergeKeys);
    SettledTrans(s, s1, s2);
    SettledTrans(s, s2, s3);
    SettledTrans(s, s3, s4);
    SettledTrans(s, s4, s5);
    InvCounts(p, s4);
    InvCounts(p, s5);
    SplitRunIdle(p, s4, limit, 0);
    SplitRunIdle(p, s5, limit, 0);
  }

  // ---- one step ----

  /** Dispatched before the epoch was last rolled. */
  predicate Stuck(s: State, b: Id) { b in s.batches && s.batches[b].state.Dispatched? && s.batches[b].epoch < s.epoch }

  /** What a step does to a stuck batch and its live members. */
  predicate Spared(s: State, s': State, b: Id) {
    && b in s.batches && b in s'.batches && s'.batches[b].state == s.batches[b].state
    && forall m :: m in s.batches[b].members && m in s.requests && !Terminal(s.requests[m].state) ==>
         m in s'.requests && !Reported(s'.requests[m].state)
  }

  lemma EndingSpares(s: State, s': State, b: Id, ids: seq<Id>)
    requires EndsOnly(s, s', ids) && Settled(s, s') && Stuck(s, b)
    ensures Spared(s, s', b)
  {
  }

  /** A batch that accepts a report, or is run locally, shares no member with a stuck
      one. */
  lemma Strangers(p: BatchPolicy, s: State, b: Id, x: Id)
    requires Inv(p, s) && Stuck(s, b) && x in s.batches && x != b && Active(s.batches[x].state)
    ensures forall m :: m in s.batches[b].members ==> m !in s.batches[x].members
  {
    hide Inv;
    forall m | m in s.batches[b].members && m in s.batches[x].members ensures false { Snapshot.OneHome(p, s, b, x, m); }
  }

  lemma TouchingSpares(s: State, s': State, b: Id, rs: set<Id>, x: Id)
    requires SameButRequests(s, s', rs, x) && b in s.batches && x != b
    requires forall m :: m in s.batches[b].members ==> m !in rs
    ensures Spared(s, s', b)
  {
  }

  /** An accepted report leaves a stuck batch alone: it cannot be the batch it names. */
  lemma CompleteSpares(p: BatchPolicy, s: State, c: Completion, now: int, b: Id)
    requires Inv(p, s) && ReportOk(s, c) && Stuck(s, b)
    ensures Spared(s, Complete(p, s, c, now).0, b)
  {
    hide Inv, ReportAll, Close, Honest, OpenInv;
    if Authority(s, c).Ok? {
      var x := c.batch;
      var rs := set m | m in s.batches[x].members;
      ReportIsHonest(p, s, c);
      ReportTouchesInside(p, s, c, now, rs);
      Strangers(p, s, b, x);
      TouchingSpares(s, Complete(p, s, c, now).0, b, rs, x);
    }
  }

  /** A local run starts from a sealed batch, so it is not the stuck one. */
  lemma LocalRunSpares(p: BatchPolicy, s: State, x: Id, worker: Id, results: seq<MemberResult>, now: int, b: Id)
    requires Inv(p, s) && Stuck(s, b)
    requires x in s.batches ==> Echoes(Work(s.requests, s.batches[x].members), Successes(results))
    ensures Spared(s, DispatchAndRun(p, s, x, worker, results, now).0, b)
  {
    hide Inv, Evolves, Hand, Start, Complete, Work, Honest, Echoes, Successes;
    if x in s.batches && s.batches[x].state.Sealed? {
      var boot := if worker in s.workers then s.workers[worker].boot else 0;
      var s1 := Hand(s, x, worker, boot);
      StartedShape(s, x, worker, boot);
      var s2 := Start(s1, x);
      HandGood(p, s, x, worker, boot);
      StartGood(p, s1, x);
      EchoIsHonest(p, s, x, Successes(results));
      var y := s2.batches[x];
      var c := Completion(worker, boot, y.epoch, y.generation, x, Successes(results));
      var s' := Complete(p, s2, c, now).0;
      var rs := set m | m in s.batches[x].members;
      Strangers(p, s, b, x);
      if Authority(s2, c).Ok? {
        ReportTouchesInside(p, s2, c, now, rs);
        TwiceTouched(s, s2, s', rs, x);
      } else {
        RefusedTouchesNothing(p, s2, c, now);
        TwiceTouched(s, s2, s', rs, x);
      }
      TouchingSpares(s, s', b, rs, x);
    }
  }

  lemma RefusedTouchesNothing(p: BatchPolicy, s: State, c: Completion, now: int)
    requires !Authority(s, c).Ok?
    ensures forall rs, x :: SameButRequests(s, Complete(p, s, c, now).0, rs, x)
  {
    hide ReportAll, Close;
  }

  lemma TwiceTouched(a: State, b: State, c: State, rs: set<Id>, x: Id)
    requires SameButRequests(a, b, rs, x) && SameButRequests(b, c, rs, x)
    ensures SameButRequests(a, c, rs, x)
  {
  }

  lemma StartedShape(s: State, x: Id, worker: Id, boot: Id)
    requires x in s.batches && s.batches[x].state.Sealed?
    ensures x in Hand(s, x, worker, boot).batches && Hand(s, x, worker, boot).batches[x].state.Dispatched?
    ensures var s2 := Start(Hand(s, x, worker, boot), x);
            && x in s2.batches && s2.batches[x].members == s.batches[x].members && s2.nextAttempt == s.nextAttempt
            && SameButRequests(s, s2, (set m | m in s.batches[x].members), x)
  {
  }

  lemma DispatchSpares(s: State, x: Id, worker: Id, boot: Id, b: Id)
    requires Stuck(s, b)
    ensures Spared(s, PrepareDispatch(s, x, worker, boot).0, b)
  {
    hide Hand, Spared, EndsOnly, Settled;
    EndsRefl(s, []);
    SettledRefl(s);
    if x in s.batches && s.batches[x].state.Sealed? {
      HandEnds(s, x, worker, boot);
      EndingSpares(s, Hand(s, x, worker, boot), b, []);
    }
    EndingSpares(s, s, b, []);
  }

  lemma HandEnds(s: State, x: Id, worker: Id, boot: Id)
    requires x in s.batches && s.batches[x].state.Sealed?
    ensures EndsOnly(s, Hand(s, x, worker, boot), []) && Settled(s, Hand(s, x, worker, boot))
  {
  }

  lemma SubmitSpares(p: BatchPolicy, s: State, meta: Metadata, now: int, b: Id)
    requires Numbered(s) && Stuck(s, b)
    ensures Spared(s, Submit(p, s, meta, now), b)
  {
    hide Submit, Admit, CountAdmission;
    SubmitShape(p, s, meta, now);
    assert s.nextRequest !in s.requests;
  }

  lemma ExpireEnds(p: BatchPolicy, s: State, waiting: seq<Id>, placed: seq<Id>, now: int)
    ensures EndsOnly(s, Expire(p, s, waiting, placed, now), waiting + placed)
  {
    hide ExpireWaiting, CancelAll, EndsOnly;
    var s0 := ExpireWaiting(s, waiting, now);
    ExpireWaitingEnds(s, waiting, now);
    CancelAllEnds(p, s0, placed, now);
    EndsTrans(s, s0, CancelAll(p, s0, placed, now), waiting, placed);
  }

  /** What each step of a core run does to a stuck batch. */
  lemma StepSpares(p: BatchPolicy, y: System, step: Step, b: Id)
    requires SystemInv(p, y) && Enabled(p, y, step) && Stuck(y.fabric, b)
    ensures Spared(y.fabric, After(p, y.fabric, step), b)
  {
    hide Inv, DispatchOk, ReportOk, Expirable, IsWorkerLimit, AllRoomy, Echoes, HonestReply, Spared, Stuck, Settled, EndsOnly,
         Submit, Cancel, Expire, Tick, Seal, Merge, PrepareDispatch, Complete, DispatchAndRun, RollEpoch, RegisterWorker;
    var s := y.fabric;
    match step
    case Submission(meta, now) => assert Numbered(s) by { InvNumbered(p, s); } SubmitSpares(p, s, meta, now, b);
    case Cancellation(r, now) => CancelEnds(p, s, r, now); CancelSettled(p, s, r, now); EndingSpares(s, After(p, s, step), b, [r]);
    case Expiry(waiting, placed, now) =>
      ExpireEnds(p, s, waiting, placed, now);
      ExpireSettled(p, s, waiting, placed, now);
      EndingSpares(s, After(p, s, step), b, waiting + placed);
    case TickStep(plan, limit, now) =>
      LimitIsRoomy(p, s.workers, limit);
      TickEndsOnlyListed(p, s, plan, limit, now);
      TickSettled(p, s, plan, limit, now);
      EndingSpares(s, After(p, s, step), b, plan.waiting + plan.placed);
    case Sealing(x) => SealEnds(s, x); SealSettled(s, x); EndingSpares(s, After(p, s, step), b, []);
    case Merging(x, z) => MergeEnds(p, s, x, z); MergeSettled(p, s, x, z); EndingSpares(s, After(p, s, step), b, []);
    case Dispatch(x, w, boot) => DispatchSpares(s, x, w, boot, b);
    case Reply(_, _) => NothingSpares(s, s, b);
    case Delivery(c, now) => CompleteSpares(p, s, c, now, b);
    case LocalRun(x, w, results, now) => LocalRunSpares(p, s, x, w, results, now, b);
    case EpochRoll => assert RollEpoch(s).batches == s.batches && RollEpoch(s).requests == s.requests by { RollKeeps(s); }
                      NothingSpares(s, RollEpoch(s), b);
    case Registration(w, boot, maxBatch) => RegisterSpares(s, w, boot, maxBatch, b);
  }

  lemma InvNumbered(p: BatchPolicy, s: State)
    requires Inv(p, s)
    ensures Numbered(s)
  {
    hide Keyed, AllSound, IndexKnown, FormingKnown, CoreBut, TrialInv, LedgerInv, Bounded;
  }

  lemma NothingSpares(s: State, s': State, b: Id)
    requires Stuck(s, b) && s'.batches == s.batches && s'.requests == s.requests
    ensures Spared(s, s', b)
  {
  }

  lemma RollKeeps(s: State)
    ensures RollEpoch(s).batches == s.batches && RollEpoch(s).requests == s.requests
  {
  }

  lemma RegisterSpares(s: State, w: Id, boot: Id, maxBatch: U32, b: Id)
    requires Stuck(s, b)
    ensures Spared(s, RegisterWorker(s, w, boot, maxBatch), b)
  {
  }

  // ---- whole runs ----

  /** A batch dispatched before an epoch roll keeps its state and its list for the rest of
      the run: no report, tick or call ever closes it. */
  lemma {:induction false} StaysStuck(p: BatchPolicy, run: seq<System>, steps: seq<Step>, i: nat, j: nat, b: Id)
    requires IsRun(p, run, steps) && i <= j < |run| && Stuck(run[i].fabric, b)
    ensures Stuck(run[j].fabric, b) && run[j].fabric.batches[b].members == run[i].fabric.batches[b].members
    decreases j - i
  {
    hide Enabled, Next, SystemInv, Spared;
    if i < j {
      StaysStuck(p, run, steps, i, j - 1, b);
      StuckStep(p, run, steps, j - 1, b);
    }
  }

  lemma StuckStep(p: BatchPolicy, run: seq<System>, steps: seq<Step>, k: nat, b: Id)
    requires IsRun(p, run, steps) && k + 1 < |run| && Stuck(run[k].fabric, b)
    ensures var s, s' := run[k].fabric, run[k + 1].fabric;
            Stuck(s', b) && s'.batches[b].members == s.batches[b].members && Spared(s, s', b)
  {
    hide Enabled, After, Inv, DispatchOk, ReportOk, Spared, RequestsEvolve, AttemptsEvolve;
    RunInv(p, run, steps, k);
    assert Enabled(p, run[k], steps[k]) && run[k + 1] == Next(p, run[k], steps[k]);
    StepSpares(p, run[k], steps[k], b);
    RunEvolves(p, run, steps, k, k + 1);
    SparedKnown(run[k].fabric, run[k + 1].fabric, b);
    assert BatchEvolves(run[k].fabric.batches[b], run[k + 1].fabric.batches[b]);
  }

  lemma SparedKnown(s: State, s': State, b: Id)
    requires Spared(s, s', b)
    ensures b in s.batches && b in s'.batches && s'.batches[b].state == s.batches[b].state
  {
  }

  /** In flight, or ended by a cancellation or a deadline: not by a report. */
  predicate Unreported(s: State, m: Id) {
    m in s.requests && (s.requests[m].state.Dispatched? || (Terminal(s.requests[m].state) && !Reported(s.requests[m].state)))
  }

  lemma MemberAtHome(p: BatchPolicy, s: State, b: Id, m: Id)
    requires Inv(p, s) && Stuck(s, b) && m in s.batches[b].members
    ensures m in s.requests && (s.requests[m].state.Dispatched? || Terminal(s.requests[m].state))
  {
    hide WideInv, TrialInv, LedgerInv, Bounded, Housing, Distinct, Queued, FormingExact, Ordered;
    assert Numbered(s) by { InvNumbered(p, s); }
    assert Home(s.requests, b, s.batches[b]);
  }

  /** And its live members are never completed or failed, however many reports on them
      are still in flight. */
  lemma {:induction false} StuckMembers(p: BatchPolicy, run: seq<System>, steps: seq<Step>, i: nat, j: nat, b: Id, m: Id)
    requires IsRun(p, run, steps) && i <= j < |run| && Stuck(run[i].fabric, b)
    requires m in run[i].fabric.batches[b].members && m in run[i].fabric.requests && !Terminal(run[i].fabric.requests[m].state)
    ensures Unreported(run[j].fabric, m)
    decreases j - i
  {
    hide IsRun, Inv, Stuck, Spared, DispatchOk, ReportOk, AttemptsEvolve, BatchesEvolve;
    RunInv(p, run, steps, j);
    StaysStuck(p, run, steps, i, j, b);
    MemberAtHome(p, run[j].fabric, b, m);
    if i < j {
      StuckMembers(p, run, steps, i, j - 1, b, m);
      StaysStuck(p, run, steps, i, j - 1, b);
      StuckStep(p, run, steps, j - 1, b);
      RunEvolves(p, run, steps, j - 1, j);
      MemberStays(p, run[j - 1].fabric, run[j].fabric, b, m);
    }
  }

  lemma MemberStays(p: BatchPolicy, s: State, s': State, b: Id, m: Id)
    requires Unreported(s, m) && Spared(s, s', b) && m in s.batches[b].members && RequestsEvolve(p, s.requests, s'.requests)
    requires m in s'.requests && (s'.requests[m].state.Dispatched? || Terminal(s'.requests[m].state))
    ensures Unreported(s', m)
  {
    hide Life;
    assert RequestEvolves(p, s.requests[m], s'.requests[m]);
  }
}
