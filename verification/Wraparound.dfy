/** A fill in which a service counter wraps, and the lag bound with it. */
module Wraparound {
  import opened Types
  import opened Policy
  import opened Lists
  import opened Fairness
  import opened Scheduler
  import opened FairFill
  import Choice
  import Identity

  /** Fairness with equal weights; everything else is unlimited. */
  function Fair(): BatchPolicy {
    BatchPolicy(Budget(0, 0, 0, 0, 0), 0, 1, map[], false, FairnessPolicy(true, map[], 0, 0, 1), false, 0, true, 3)
  }

  function Job(d: Descriptor, tenant: U64, work: U64): Metadata { Metadata(tenant, 0, 0, d, 0, 0, work, 0, 0, 0, 0, []) }

  function TheKey(d: Descriptor): Key { Identity.KeyOf(d) }

  /** Request 1 is of tenant 1, requests 2 and 3 are of tenant 2. */
  function JobOf(d: Descriptor, r: Id): Metadata { if r == 1 then Job(d, 1, 1) else if r == 2 then Job(d, 2, 2) else Job(d, 2, 1) }

  function Queued(d: Descriptor, r: Id): Request { Request(JobOf(d, r), RequestState.Eligible, r, [r], 0, 0, TheKey(d), true) }

  /** Tenant 2 has been served one unit more than tenant 1, and both counters are about
      to wrap. */
  function Start(d: Descriptor): State {
    var one := Attempt(1, RequestState.Eligible, 0, [], 0, 0);
    State(map[1 := Queued(d, 1), 2 := Queued(d, 2), 3 := Queued(d, 3)], map[1 := one, 2 := one, 3 := one],
          map[1 := Empty(map[], [], 1, 1, TheKey(d), 0)], map[0 := Worker(0, 0, true)], map[TheKey(d) := [1, 2, 3]],
          map[TheKey(d) := 1], [], map[1 := 0xffff_ffff_ffff_fffd, 2 := 0xffff_ffff_ffff_fffe], map[],
          NO_STATS, 1, 4, 2, 4, 2)
  }

  /** The batch is forming, these requests are still queued, and the tenants have been
      served so much. */
  predicate Stage(d: Descriptor, s: State, left: seq<Id>, a: U64, b: U64) {
    && 1 in s.batches && (forall r :: r in left ==> r in {1, 2, 3} && r in s.requests && s.requests[r] == Queued(d, r))
    && Get(s.served, 1) == a && Get(s.served, 2) == b
  }

  lemma AllAdmissible(d: Descriptor, s: State, left: seq<Id>, a: U64, b: U64, now: int)
    requires Stage(d, s, left, a, b)
    ensures Pool(Fair(), s, 1, left, now) == left
    decreases |left|
  {
    hide Admissible, Identity.KeyOf;
    if left != [] {
      assert left[0] in left && forall r :: r in left[1..] ==> r in left;
      OneAdmissible(d, s, left[0], now);
      AllAdmissible(d, s, left[1..], a, b, now);
    }
  }

  lemma OneAdmissible(d: Descriptor, s: State, r: Id, now: int)
    requires 1 in s.batches && r in s.requests && s.requests[r] == Queued(d, r)
    ensures Admissible(Fair(), s, 1, r, now)
  {
    hide Identity.KeyOf;
  }

  lemma PickIs(s: State, pool: seq<Id>, x: Id)
    requires x in pool && (forall c :: c in pool ==> c in s.requests) && forall y :: y in pool && y != x ==> !Before(Fair(), s, y, x)
    ensures Pick(Fair(), s, pool) == x
  {
    hide Before;
    if Pick(Fair(), s, pool) != x { Choice.PickIsFirst(Fair(), s, pool, x); }
  }

  lemma Placing(d: Descriptor, s: State, left: seq<Id>, x: Id, a: U64, b: U64)
    requires Stage(d, s, left, a, b) && x in left
    ensures var s', w := Place(s, 1, TheKey(d), x), JobOf(d, x).work;
            Stage(d, s', Without(left, x), if x == 1 then Add64(a, w) else a, if x == 1 then b else Add64(b, w))
  {
    hide IndexRemove, Identity.KeyOf;
  }

  /** The second pick wraps the counter of tenant 2. */
  lemma SecondWraps(d: Descriptor, now: int)
    ensures var p, s, key := Fair(), Start(d), TheKey(d);
            var ps := Picks(p, s, 1, key, [1, 2, 3], now);
            && |ps| >= 2 && ps[0] == 1 && ps[1] == 2
            && var (s2, rest) := Midway(p, s, 1, key, [1, 2, 3], now, 2);
               rest == [3] && Stage(d, s2, [3], 0xffff_ffff_ffff_fffe, 0)
  {
    hide Place, Admissible, Identity.KeyOf, Before, Picks, Midway, Pool, Pick, Stage;
    var p, s, key := Fair(), Start(d), TheKey(d);
    var all: seq<Id> := [1, 2, 3];
    var two: seq<Id> := [2, 3];
    assert Stage(d, s, all, 0xffff_ffff_ffff_fffd, 0xffff_ffff_ffff_fffe) by { StartStage(d); }
    FirstPick(d, s, now);
    PicksStep(p, s, 1, key, all, now);
    Placing(d, s, all, 1, 0xffff_ffff_ffff_fffd, 0xffff_ffff_ffff_fffe);
    DropOne();
    var s1 := Place(s, 1, key, 1);
    SecondPick(d, s1, now);
    PicksStep(p, s1, 1, key, two, now);
    Placing(d, s1, two, 2, 0xffff_ffff_ffff_fffe, 0xffff_ffff_ffff_fffe);
    MidwayStep(p, s, 1, key, all, now, 2);
    MidwayStep(p, s1, 1, key, two, now, 1);
    MidwayStep(p, Place(s1, 1, key, 2), 1, key, [3], now, 0);
  }

  lemma DropOne()
    ensures Without([1, 2, 3], 1) == [2, 3] && Without([2, 3], 2) == [3]
  {
    var all: seq<int> := [1, 2, 3];
    assert all[1..] == [2, 3];
    assert Without([2, 3], 1) == [2, 3] && Without([3], 2) == [3];
    assert [2, 3][1..] == [3];
  }

  lemma StartStage(d: Descriptor)
    ensures Stage(d, Start(d), [1, 2, 3], 0xffff_ffff_ffff_fffd, 0xffff_ffff_ffff_fffe)
  {
    hide Identity.KeyOf;
  }

  lemma FirstPick(d: Descriptor, s: State, now: int)
    requires Stage(d, s, [1, 2, 3], 0xffff_ffff_ffff_fffd, 0xffff_ffff_ffff_fffe)
    ensures Pool(Fair(), s, 1, [1, 2, 3], now) == [1, 2, 3] && Pick(Fair(), s, [1, 2, 3]) == 1
  {
    hide Identity.KeyOf, Pick;
    AllAdmissible(d, s, [1, 2, 3], 0xffff_ffff_ffff_fffd, 0xffff_ffff_ffff_fffe, now);
    PickIs(s, [1, 2, 3], 1);
  }

  lemma SecondPick(d: Descriptor, s: State, now: int)
    requires Stage(d, s, [2, 3], 0xffff_ffff_ffff_fffe, 0xffff_ffff_ffff_fffe)
    ensures Pool(Fair(), s, 1, [2, 3], now) == [2, 3] && Pick(Fair(), s, [2, 3]) == 2
  {
    hide Identity.KeyOf, Pick;
    AllAdmissible(d, s, [2, 3], 0xffff_ffff_ffff_fffe, 0xffff_ffff_ffff_fffe, now);
    PickIs(s, [2, 3], 2);
  }

  lemma NothingSlips(m: Metadata)
    ensures !Slips(Fair().budget, m)
  {
  }

  lemma StartIsCalm(d: Descriptor)
    ensures CalmFill(Fair(), Start(d), 1, TheKey(d), [1, 2, 3])
  {
    hide Identity.KeyOf, Slips;
    var p, s := Fair(), Start(d);
    forall r | r in s.requests ensures !Slips(p.budget, s.requests[r].meta) { NothingSlips(s.requests[r].meta); }
  }

  /** The hypotheses of LagBound but for the one on the counters, and not its conclusion:
      the first `k` picks include tenant `i`, and `c` still contends. */
  ghost predicate Outrun(p: BatchPolicy, s: State, bid: Id, key: Key, cands: seq<Id>, now: int, bound: nat, k: nat, i: U64, c: Id) {
    && bid in s.batches && CalmFill(p, s, bid, key, cands) && WorkAtMost(s.requests, cands, bound)
    && k <= |Picks(p, s, bid, key, cands, now)| && i in TenantsOf(s.requests, Picks(p, s, bid, key, cands, now)[..k])
    && Contends(p, Midway(p, s, bid, key, cands, now, k), bid, c, now)
    && !LagWithin(p.fairness, Midway(p, s, bid, key, cands, now, k).0, i, c, bound)
  }

  /** All candidates have at most 2 units of work, tenant 1 has been picked and request 3
      still contends, yet tenant 1 is ahead of its tenant by almost 2^64: the counter of
      tenant 2 has wrapped. */
  lemma LagBoundFails(d: Descriptor, now: int)
    ensures Outrun(Fair(), Start(d), 1, TheKey(d), [1, 2, 3], now, 2, 2, 1, 3)
  {
    hide Place, Identity.KeyOf, Before, Picks, Midway, Pool, Pick, CalmFill;
    var p, s, key, cands := Fair(), Start(d), TheKey(d), [1, 2, 3];
    StartIsCalm(d);
    SecondWraps(d, now);
    var ps := Picks(p, s, 1, key, cands, now);
    assert ps[..2][0] == 1 && 1 in ps[..2];
    assert Weighs(p.fairness, 1, 1) && Weighs(p.fairness, 2, 1);
  }
}
