/** A retried request that the size test had refused takes its batch over budget. */
module Smuggling {
  import opened Types
  import opened Policy
  import opened Lists
  import opened Scheduler
  import opened Totals
  import opened Wide
  import opened Network
  import opened Engine
  import opened WideRuns
  import Fairness
  import Identity

  /** Only the budget matters here; the rest of the policy stays out of the way. */
  function OnlyBudget(b: Budget): BatchPolicy {
    BatchPolicy(b, 0, 1, map[], false, FairnessPolicy(false, map[], 0, 0, 1), false, 0, true, 3)
  }

  predicate Acceptable(m: Metadata, now: int) {
    m.descriptor.model != [] && m.descriptor.revision != [] && !Policy.Expired(m.deadline, now)
  }

  /** Request 1 is queued, request 2 is refused. */
  function Submitted(b: Budget, m: Metadata, now: int): State {
    Submit(OnlyBudget(b), Submit(OnlyBudget(b), INITIAL, Smuggler(b, m), now), m, now)
  }

  function First(q: Metadata, key: Key, now: int): Request {
    Request(q, RequestState.Eligible, 1, [1], 0, now, key, true)
  }

  function Second(m: Metadata, key: Key, now: int): Request {
    Request(m, RequestState.Eligible, 3, [2, 3], 0, now, key, true)
  }

  lemma AfterFirst(b: Budget, q: Metadata, now: int)
    requires Acceptable(q, now) && !Oversized(b, q)
    ensures var s, key := Submit(OnlyBudget(b), INITIAL, q, now), Identity.KeyOf(q.descriptor);
            && s.requests == map[1 := First(q, key, now)] && s.index == map[key := [1]]
            && s.batches == map[] && s.forming == map[] && s.sealedOrder == []
            && s.nextRequest == 2 && s.nextBatch == 1 && s.nextAttempt == 2
  {
    hide Identity.KeyOf, Oversized;
    var p := OnlyBudget(b);
    assert Admit(p, INITIAL, q, now).Admitted?;
    var none: seq<Id> := [];
    assert none + [1] == [1];
    var s := Submit(p, INITIAL, q, now);
    assert s.requests == map[1 := First(q, Identity.KeyOf(q.descriptor), now)];
    assert s.index == map[Identity.KeyOf(q.descriptor) := [1]];
  }

  lemma AfterSubmission(b: Budget, m: Metadata, now: int)
    requires Slips(b, m) && Acceptable(m, now)
    ensures var s, key, q := Submitted(b, m, now), Identity.KeyOf(m.descriptor), Smuggler(b, m);
            && s.requests == map[1 := First(q, key, now), 2 := Request(m, RequestState.Rejected, 2, [2], 0, now, key, false)]
            && s.index == map[key := [1]] && s.batches == map[] && s.forming == map[] && s.sealedOrder == []
            && s.nextBatch == 1 && s.nextAttempt == 3
            && 2 in s.attempts && s.attempts[2].number == 1
  {
    hide Identity.KeyOf, Smuggler, Slips, Oversized, Submit;
    SmugglerFits(b, m, now);
    AfterFirst(b, Smuggler(b, m), now);
    AfterSecond(b, Submit(OnlyBudget(b), INITIAL, Smuggler(b, m), now), m, now);
  }

  lemma AfterSecond(b: Budget, s: State, m: Metadata, now: int)
    requires Acceptable(m, now) && Oversized(b, m) && s.nextRequest == 2 && s.nextAttempt == 2
    ensures var s', key := Submit(OnlyBudget(b), s, m, now), Identity.KeyOf(m.descriptor);
            && s'.requests == s.requests[2 := Request(m, RequestState.Rejected, 2, [2], 0, now, key, false)]
            && s'.index == s.index && s'.batches == s.batches && s'.forming == s.forming && s'.sealedOrder == s.sealedOrder
            && s'.nextBatch == s.nextBatch && s'.nextAttempt == 3 && 2 in s'.attempts && s'.attempts[2].number == 1
  {
    hide Identity.KeyOf, Oversized;
    assert Admit(OnlyBudget(b), s, m, now).TooLarge?;
  }

  lemma SmugglerFits(b: Budget, m: Metadata, now: int)
    requires Slips(b, m)
    ensures Oversized(b, m) && !Oversized(b, Smuggler(b, m)) && Smuggler(b, m).descriptor == m.descriptor
    ensures Acceptable(m, now) ==> Acceptable(Smuggler(b, m), now)
  {
    hide Ballast;
  }

  // ---- the retry and its tick ----

  lemma AfterRetry(b: Budget, m: Metadata, now: int)
    requires Slips(b, m) && Acceptable(m, now)
    ensures var (s, code) := Retry(OnlyBudget(b), Submitted(b, m, now), 2, now);
            var key, q := Identity.KeyOf(m.descriptor), Smuggler(b, m);
            && code.Ok? && s.requests == map[1 := First(q, key, now), 2 := Second(m, key, now)]
            && s.index == map[key := [1, 2]] && s.batches == map[] && s.forming == map[] && s.sealedOrder == [] && s.nextBatch == 1
  {
    hide Identity.KeyOf, Smuggler, Slips, Submitted;
    AfterSubmission(b, m, now);
    var key := Identity.KeyOf(m.descriptor);
    var one: seq<Id> := [1];
    var two: seq<Id> := [2];
    assert one + [2] == [1, 2] && two + [3] == [2, 3];
    var s2, s := Submitted(b, m, now), Retry(OnlyBudget(b), Submitted(b, m, now), 2, now).0;
    assert s.requests == map[1 := First(Smuggler(b, m), key, now), 2 := Second(m, key, now)];
    assert s.index == map[key := [1, 2]];
  }

  /** Batch `n` is forming and request `x` waits, not yet late. */
  predicate Ready(s: State, n: Id, key: Key, x: Id, now: int) {
    && n in s.batches && s.batches[n].key == key && s.batches[n].state.Forming?
    && x in s.requests && s.requests[x].state.Eligible? && !Policy.Expired(s.requests[x].meta.deadline, now)
  }

  lemma PlainAdmissible(b: Budget, s: State, n: Id, key: Key, x: Id, now: int)
    requires Ready(s, n, key, x, now)
    ensures Admissible(OnlyBudget(b), s, n, x, now) <==> AllowsAdd(b, s.batches[n].accum, Load(s.requests[x].meta))
  {
  }

  /** A fill that finds only `x` admissible takes `x` first. */
  lemma FillTakes(p: BatchPolicy, s: State, n: Id, key: Key, cands: seq<Id>, x: Id, now: int)
    requires n in s.batches && x in s.requests && Pool(p, s, n, cands, now) == [x]
    ensures Fill(p, s, n, key, cands, now) == Fill(p, Place(s, n, key, x), n, key, Without(cands, x), now)
  {
    hide Place, Pool, Admissible;
  }

  lemma PlaceShape(s: State, key: Key, x: Id)
    requires 1 in s.batches && x in s.requests && s.batches[1].members == [] && s.batches[1].accum == ZERO
    ensures var s' := Place(s, 1, key, x);
            && 1 in s'.batches && s'.batches[1].members == [x] && s'.batches[1].accum == Load(s.requests[x].meta)
            && s'.batches[1].key == s.batches[1].key && s'.batches[1].state == s.batches[1].state
            && forall y :: y in s.requests && y != x ==> y in s'.requests && s'.requests[y] == s.requests[y]
  {
    hide IndexRemove, Fairness.NoteWork;
    assert s.batches[1].members + [x] == [x];
  }

  lemma FillBoth(b: Budget, s: State, key: Key, now: int)
    requires Ready(s, 1, key, 1, now) && Ready(s, 1, key, 2, now) && s.batches[1].members == [] && s.batches[1].accum == ZERO
    requires Smuggles(b, s.requests[1].meta, s.requests[2].meta) && Oversized(b, s.requests[2].meta)
    ensures Fill(OnlyBudget(b), s, 1, key, [1, 2], now).batches[1].members == [1, 2]
  {
    hide Place, Admissible, Oversized, AllowsAdd, Smuggles;
    var p, q, m := OnlyBudget(b), s.requests[1].meta, s.requests[2].meta;
    SmuggleParts(b, q, m);
    PlainAdmissible(b, s, 1, key, 1, now);
    PlainAdmissible(b, s, 1, key, 2, now);
    PoolOfTwo(p, s, now);
    FillTakes(p, s, 1, key, [1, 2], 1, now);
    var s1 := Place(s, 1, key, 1);
    PlaceShape(s, key, 1);
    WithoutFirstOfTwo();
    PlainAdmissible(b, s1, 1, key, 2, now);
    PoolOfOne(p, s1, 1, 2, now);
    FillTakes(p, s1, 1, key, [2], 2, now);
    PlaceAppends(s1, key, 2);
    NothingLeft(p, Place(s1, 1, key, 2), 1, key, now);
  }

  lemma SmuggleParts(b: Budget, q: Metadata, m: Metadata)
    requires Smuggles(b, q, m) && Oversized(b, m)
    ensures AllowsAdd(b, ZERO, Load(q)) && AllowsAdd(b, Load(q), Load(m)) && !AllowsAdd(b, ZERO, Load(m))
  {
  }

  lemma PoolOfTwo(p: BatchPolicy, s: State, now: int)
    requires 1 in s.batches && Admissible(p, s, 1, 1, now) && !Admissible(p, s, 1, 2, now)
    ensures Pool(p, s, 1, [1, 2], now) == [1]
  {
    hide Admissible;
    var both: seq<Id> := [1, 2];
    assert both[1..] == [2] && both[1..][1..] == [];
    assert Pool(p, s, 1, both[1..], now) == [];
  }

  lemma PoolOfOne(p: BatchPolicy, s: State, n: Id, x: Id, now: int)
    requires n in s.batches && Admissible(p, s, n, x, now)
    ensures Pool(p, s, n, [x], now) == [x]
  {
    hide Admissible;
    assert [x][1..] == [];
  }

  lemma WithoutFirstOfTwo()
    ensures Without([1, 2], 1) == [2]
    ensures Without([2], 2) == []
  {
    var both: seq<int> := [1, 2];
    assert both[1..] == [2];
    assert Without([2], 1) == [2];
  }

  lemma PlaceAppends(s: State, key: Key, x: Id)
    requires 1 in s.batches && x in s.requests && s.batches[1].members == [1]
    ensures Place(s, 1, key, x).batches[1].members == [1, x]
  {
    hide IndexRemove, Fairness.NoteWork;
  }

  lemma NothingLeft(p: BatchPolicy, s: State, n: Id, key: Key, now: int)
    requires n in s.batches
    ensures Fill(p, s, n, key, [], now) == s
  {
  }

  // ---- the rest of the tick ----

  lemma {:induction false} SplitRunNone(s: State, i: nat)
    ensures SplitRun(s, 0, i) == s
    decreases |s.sealedOrder| - i
  {
    if i < |s.sealedOrder| { SplitRunNone(s, i + 1); }
  }

  /** Batch 1 lists these requests, and possibly more after them. */
  predicate Holds(s: State, ms: seq<Id>) { 1 in s.batches && ms <= s.batches[1].members }

  lemma SealHolds(s: State, bid: Id, ms: seq<Id>)
    requires Holds(s, ms)
    ensures Holds(Seal(s, bid).0, ms)
  {
    hide Advance;
  }

  lemma {:induction false} SealAllHolds(s: State, ids: seq<Id>, ms: seq<Id>)
    requires Holds(s, ms)
    ensures Holds(SealAll(s, ids), ms)
  {
    hide Seal, Holds;
    if ids != [] {
      SealAllHolds(s, ids[..|ids| - 1], ms);
      SealHolds(SealAll(s, ids[..|ids| - 1]), ids[|ids| - 1], ms);
    }
  }

  /** The forming step: opens batch 1, fills it with both requests, empties the
      bucket. */
  lemma FormBoth(b: Budget, s: State, key: Key, now: int)
    requires s.nextBatch == 1 && s.batches == map[] && s.forming == map[] && s.index == map[key := [1, 2]]
    requires 1 in s.requests && 2 in s.requests && s.requests[1].state.Eligible? && s.requests[2].state.Eligible?
    requires !Policy.Expired(s.requests[1].meta.deadline, now) && !Policy.Expired(s.requests[2].meta.deadline, now)
    requires Smuggles(b, s.requests[1].meta, s.requests[2].meta) && Oversized(b, s.requests[2].meta)
    ensures var s' := MakeForming(OnlyBudget(b), s, key, now); Holds(s', [1, 2]) && s'.forming == map[key := 1] && s'.batches[1].key == key
  {
    hide AllowedWait, Earliest, Fill, Smuggles, Oversized;
    var p, s0 := OnlyBudget(b), OpenForming(s, key, now);
    FillBoth(b, s0, key, now);
    FillKeepsForming(p, s0, key, [1, 2], now);
  }

  lemma {:induction false} FillHolds(p: BatchPolicy, s: State, bid: Id, key: Key, cands: seq<Id>, now: int, ms: seq<Id>)
    requires bid in s.batches && Holds(s, ms)
    ensures Holds(Fill(p, s, bid, key, cands, now), ms)
    decreases |cands|
  {
    hide Pick, Pool, Place, Holds;
    var pool := Pool(p, s, bid, cands, now);
    if pool != [] {
      var pick := Pick(p, s, pool);
      PlaceHolds(s, bid, key, pick, ms);
      FillHolds(p, Place(s, bid, key, pick), bid, key, Without(cands, pick), now, ms);
    }
  }

  lemma PlaceHolds(s: State, bid: Id, key: Key, pick: Id, ms: seq<Id>)
    requires bid in s.batches && pick in s.requests && Holds(s, ms)
    ensures Holds(Place(s, bid, key, pick), ms)
  {
    hide IndexRemove, Fairness.NoteWork;
  }

  lemma RefillHolds(p: BatchPolicy, s: State, key: Key, now: int, ms: seq<Id>)
    requires Holds(s, ms)
    ensures Holds(Refill(p, s, key, now).0, ms)
  {
    hide Fill, AllowedWait, Drained, SealNow;
    if key in s.forming && s.forming[key] in s.batches {
      var bid := s.forming[key];
      FillHolds(p, s, bid, s.batches[bid].key, Bucket(s.index, s.batches[bid].key), now, ms);
    }
  }

  /** The loops of the tick that ends the retry, in the one order there is. */
  function TheTick(key: Key): Plan { Plan([], [], [key], [key], []) }

  lemma RefillAllOne(p: BatchPolicy, s: State, key: Key, now: int)
    ensures RefillAll(p, s, [key], now).0 == Refill(p, s, key, now).0
  {
    hide Refill;
    var one: seq<Key> := [key];
    assert one[..0] == [];
    assert RefillAll(p, s, one[..0], now) == (s, []);
  }

  lemma TickHolds(b: Budget, s: State, key: Key, now: int)
    requires s.nextBatch == 1 && s.batches == map[] && s.forming == map[] && s.index == map[key := [1, 2]]
    requires 1 in s.requests && 2 in s.requests && s.requests[1].state.Eligible? && s.requests[2].state.Eligible?
    requires !Policy.Expired(s.requests[1].meta.deadline, now) && !Policy.Expired(s.requests[2].meta.deadline, now)
    requires Smuggles(b, s.requests[1].meta, s.requests[2].meta) && Oversized(b, s.requests[2].meta)
    ensures Holds(Tick(OnlyBudget(b), s, TheTick(key), 0, now), [1, 2])
  {
    hide MakeForming, Refill, SealAll, Smuggles, Oversized, Holds;
    var p, plan := OnlyBudget(b), TheTick(key);
    assert Expire(p, s, [], [], now) == s;
    var s2 := MakeForming(p, s, key, now);
    FormBoth(b, s, key, now);
    var one: seq<Key> := [key];
    assert one[..0] == [];
    assert FormNew(p, s, one, now) == s2;
    var (s3, seals) := RefillAll(p, s2, one, now);
    RefillAllOne(p, s2, key, now);
    RefillHolds(p, s2, key, now, [1, 2]);
    SealAllHolds(s3, seals, [1, 2]);
    SplitRunNone(SealAll(s3, seals), 0);
  }

  /** That is what the loops of the tick visit. */
  lemma PlanIsObserved(b: Budget, s: State, key: Key, now: int)
    requires s.nextBatch == 1 && s.batches == map[] && s.forming == map[] && s.index == map[key := [1, 2]]
    requires 1 in s.requests && 2 in s.requests && s.requests[1].state.Eligible? && s.requests[2].state.Eligible?
    requires !Policy.Expired(s.requests[1].meta.deadline, now) && !Policy.Expired(s.requests[2].meta.deadline, now)
    requires Smuggles(b, s.requests[1].meta, s.requests[2].meta) && Oversized(b, s.requests[2].meta)
    ensures Observed(OnlyBudget(b), s, TheTick(key), now)
  {
    hide MakeForming, RefillAll, SealAll, Smuggles, Oversized, Holds;
    var p := OnlyBudget(b);
    assert Expire(p, s, [], [], now) == s;
    var one: seq<Key> := [key];
    assert one[..0] == [];
    FormBoth(b, s, key, now);
    assert FormNew(p, s, one, now) == MakeForming(p, s, key, now);
    assert !Late(s.requests, 1, now) && !Late(s.requests, 2, now);
    assert NoDup(one) && forall k :: k in one <==> k == key;
  }

  // ---- the run ----

  /** Submit the smuggler, submit the oversized request, retry the latter. */
  function TheSteps(b: Budget, m: Metadata, now: int): seq<WideStep> {
    [Plain(Submission(Smuggler(b, m), now)), Plain(Submission(m, now)),
     Retrying(2, TheTick(Identity.KeyOf(m.descriptor)), 0, now)]
  }

  lemma {:induction false} FillKeepsForming(p: BatchPolicy, s: State, key: Key, cands: seq<Id>, now: int)
    requires 1 in s.batches
    ensures var s' := Fill(p, s, 1, key, cands, now); s'.forming == s.forming && s'.batches[1].key == s.batches[1].key
    decreases |cands|
  {
    hide Pick, Pool, IndexRemove, Fairness.NoteWork;
    var pool := Pool(p, s, 1, cands, now);
    if pool != [] { FillKeepsForming(p, Place(s, 1, key, Pick(p, s, pool)), key, Without(cands, Pick(p, s, pool)), now); }
  }

  ghost function TheRun(b: Budget, m: Metadata, now: int): (run: seq<System>)
    ensures |run| == 4
  {
    WidePlay(OnlyBudget(b), TheSteps(b, m, now))
  }

  lemma RunExists(b: Budget, m: Metadata, now: int)
    ensures IsWideRun(OnlyBudget(b), TheRun(b, m, now), TheSteps(b, m, now))
    ensures var run := TheRun(b, m, now);
            && run[2].fabric == Submitted(b, m, now)
            && run[3].fabric == WideAfter(OnlyBudget(b), Submitted(b, m, now), TheSteps(b, m, now)[2])
  {
    hide Submit, Retry, Tick, Smuggler, Identity.KeyOf, WidePlay;
    var p, run, steps := OnlyBudget(b), TheRun(b, m, now), TheSteps(b, m, now);
    WidePlayFollows(p, steps);
    assert run[1] == WideNext(p, run[0], steps[0]) && run[2] == WideNext(p, run[1], steps[1]) && run[3] == WideNext(p, run[2], steps[2]);
    assert run[1].fabric == Submit(p, INITIAL, Smuggler(b, m), now);
  }

  lemma EndOfRun(b: Budget, m: Metadata, now: int)
    requires Slips(b, m) && Acceptable(m, now)
    ensures var s, key := Retry(OnlyBudget(b), Submitted(b, m, now), 2, now).0, Identity.KeyOf(m.descriptor);
            TheRun(b, m, now)[3].fabric == Tick(OnlyBudget(b), s, TheTick(key), 0, now)
  {
    hide Submit, Retry, Tick, Smuggler, Identity.KeyOf, Slips, Submitted, TheRun;
    RunExists(b, m, now);
    AfterRetry(b, m, now);
  }

  /** For every budget and every request with an identity that is not late and slips
      past the size test there is a run of three calls, whose tick visits what its
      loops visit, after which a batch exceeds the budget. So the screening that
      `BudgetsHold` asks for cannot be dropped for any such size. */
  lemma RetryBreaksBudget(b: Budget, m: Metadata, now: int)
    requires Slips(b, m) && Acceptable(m, now)
    ensures var s := Retry(OnlyBudget(b), TheRun(b, m, now)[2].fabric, 2, now).0;
            Observed(OnlyBudget(b), s, TheTick(Identity.KeyOf(m.descriptor)), now) && IsWorkerLimit(s.workers, 0)
    ensures var run, p := TheRun(b, m, now), OnlyBudget(b);
            && IsWideRun(p, run, TheSteps(b, m, now))
            && 1 in run[3].fabric.batches
            && !Within(b, Usage(run[3].fabric.requests, run[3].fabric.batches[1].members))
  {
    hide Slips, Smuggler, Smuggles, Oversized, Tick, Retry, Submitted, TheRun, Usage, Identity.KeyOf, IsWideRun, Within, Acceptable, Observed;
    var p, run, key := OnlyBudget(b), TheRun(b, m, now), Identity.KeyOf(m.descriptor);
    var s := Retry(p, Submitted(b, m, now), 2, now).0;
    RunExists(b, m, now);
    EndOfRun(b, m, now);
    AfterRetry(b, m, now);
    SmugglerFits(b, m, now);
    SmugglerWorks(b, m);
    NothingLate(b, m, now);
    TickHolds(b, s, key, now);
    PlanIsObserved(b, s, key, now);
    NoLimit(b, m, now);
    WideRunInv(p, run, TheSteps(b, m, now), 2);
    RetriedKept(p, run[2].fabric, now, s);
    TickKept(p, s, TheTick(key), 0, now);
    OverBudget(b, s.requests, run[3].fabric.requests, run[3].fabric.batches[1].members);
  }

  lemma NoLimit(b: Budget, m: Metadata, now: int)
    ensures IsWorkerLimit(Retry(OnlyBudget(b), Submitted(b, m, now), 2, now).0.workers, 0)
  {
    hide Submit, Requeue;
  }

  lemma NothingLate(b: Budget, m: Metadata, now: int)
    requires Acceptable(m, now)
    ensures !Policy.Expired(m.deadline, now) && !Policy.Expired(Smuggler(b, m).deadline, now)
  {
  }

  lemma RetriedKept(p: BatchPolicy, s2: State, now: int, s: State)
    requires WideInv(p, s2) && Retry(p, s2, 2, now).1.Ok? && s == Retry(p, s2, 2, now).0
    ensures WideInv(p, s)
  {
    hide WideInv, Requeue;
    RequeueKept(p, s2, 2, (if s2.requests[2].current in s2.attempts then s2.attempts[s2.requests[2].current].number else 0) + 1);
  }

  lemma OverBudget(b: Budget, rs: Requests, rs': Requests, ms: seq<Id>)
    requires 1 in rs && 2 in rs && Smuggles(b, rs[1].meta, rs[2].meta) && SameMetas(rs, rs') && [1, 2] <= ms
    ensures !Within(b, Usage(rs', ms))
  {
    var both: seq<Id> := [1, 2];
    var rest := ms[2..];
    assert ms == both + rest && both == [1] + [2];
    UsageConcat(rs', both, rest);
    UsageConcat(rs', [1], [2]);
    UsageOne(rs', 1);
    UsageOne(rs', 2);
    hide Usage;
  }

  lemma UsageOne(rs: Requests, r: Id)
    requires r in rs
    ensures Usage(rs, [r]) == Size(rs[r].meta)
  {
    assert [r][..0] == [];
  }

  /** A limit of 100 units of work and a request of 2^64 - 10: beside 10 units it is
      let in, and the batch then holds 2^64. */
  lemma HundredUnits(d: Metadata, now: int)
    requires Acceptable(d, now)
    ensures var b, m := Budget(0, 0, 0, 100, 0), d.(work := 0xffff_ffff_ffff_fff6);
            && SafeLimits(b) && Slips(b, m) && Smuggler(b, m).work == 10
            && var s := TheRun(b, m, now)[3].fabric;
               1 in s.batches && !Within(b, Usage(s.requests, s.batches[1].members))
  {
    hide TheRun, Usage, IsWideRun, TheSteps;
    RetryBreaksBudget(Budget(0, 0, 0, 100, 0), d.(work := 0xffff_ffff_ffff_fff6), now);
  }
}
