/** Who may join a forming batch, who is taken next and what that changes, in terms of
    the limits, the members and the served work. */
module Joining {
  import opened Types
  import opened Policy
  import opened Lists
  import opened Fairness
  import opened Scheduler
  import opened Placement
  import opened Invariant
  import opened Filling
  import opened FairFill
  import Admission
  import Cancellation
  import Choice
  import Limits

  // ---- who may join ----

  /** The members that belong to a tenant, by their place in the list. */
  function OfTenant(rs: Requests, members: seq<Id>, t: U64): set<nat> {
    set i | 0 <= i < |members| && members[i] in rs && rs[members[i]].meta.tenant == t
  }

  /** The sum of two 64-bit amounts as the machine adds them. */
  function Wrapped(x: nat, y: nat): nat { (x + y) % 0x1_0000_0000_0000_0000 }

  /** There is room for the request beside what the batch has. */
  predicate Room(b: Budget, u: Accum, m: Metadata) {
    && (b.maxRequests == 0 || u.count + 1 <= b.maxRequests)
    && (b.maxInput == 0 || Wrapped(u.input, m.input) <= b.maxInput)
    && (b.maxOutput == 0 || Wrapped(u.output, m.output) <= b.maxOutput)
    && (b.maxWork == 0 || Wrapped(u.work, m.work) <= b.maxWork)
    && (b.maxMemory == 0 || Wrapped(u.memory, m.memory) <= b.maxMemory)
  }

  /** The request waits, is not late, its tenant is below its cap and below its share of
      this batch, and there is room for it. */
  predicate MayJoin(p: BatchPolicy, s: State, bid: Id, r: Id, now: int) {
    && bid in s.batches && r in s.requests
    && var q, b := s.requests[r], s.batches[bid];
       && (q.state.Eligible? || q.state.Waiting?)
       && !(0 < q.meta.deadline <= now)
       && !Admission.Capped(p.fairness, s.outstanding, q.meta.tenant)
       && (p.fairness.maxContribution == 0
           || |OfTenant(s.requests, b.members, q.meta.tenant)| % 0x1_0000_0000 < p.fairness.maxContribution)
       && Room(p.budget, b.accum, q.meta)
  }

  lemma {:induction false} CountIsOfTenant(rs: Requests, members: seq<Id>, t: U64)
    ensures CountTenant(rs, members, t) == |OfTenant(rs, members, t)|
  {
    if members == [] {
      assert OfTenant(rs, members, t) == {};
    } else {
      var n := |members| - 1;
      CountIsOfTenant(rs, members[..n], t);
      var was := OfTenant(rs, members[..n], t);
      assert OfTenant(rs, members, t) == if members[n] in rs && rs[members[n]].meta.tenant == t then was + {n} else was;
    }
  }

  lemma RoomExact(b: Budget, u: Accum, m: Metadata)
    ensures AllowsAdd(b, u, Load(m)) <==> Room(b, u, m)
  {
  }

  lemma AdmissibleExact(p: BatchPolicy, s: State, bid: Id, r: Id, now: int)
    requires bid in s.batches
    ensures Admissible(p, s, bid, r, now) <==> MayJoin(p, s, bid, r, now)
  {
    hide AllowsAdd, Room, CountTenant, OfTenant;
    if r in s.requests {
      RoomExact(p.budget, s.batches[bid].accum, s.requests[r].meta);
      CountIsOfTenant(s.requests, s.batches[bid].members, s.requests[r].meta.tenant);
    }
  }

  // ---- who comes first ----

  /** Tenants in the order of served work over configured weight, then of number; within
      a tenant in the order of arrival, then of number. */
  ghost predicate ComesFirst(p: BatchPolicy, s: State, x: Id, y: Id)
    requires x in s.requests && y in s.requests
  {
    var q, r := s.requests[x], s.requests[y];
    if q.meta.tenant != r.meta.tenant then
      forall a, b | Weighs(p.fairness, q.meta.tenant, a) && Weighs(p.fairness, r.meta.tenant, b) ::
        LessServed(s.served, q.meta.tenant, a, r.meta.tenant, b)
    else q.submitted < r.submitted || (q.submitted == r.submitted && x < y)
  }

  lemma BeforeExact(p: BatchPolicy, s: State, x: Id, y: Id)
    requires x in s.requests && y in s.requests
    ensures Before(p, s, x, y) <==> ComesFirst(p, s, x, y)
  {
    hide Prefer, LessServed;
    var t, u := s.requests[x].meta.tenant, s.requests[y].meta.tenant;
    forall a, b | Weighs(p.fairness, t, a) && Weighs(p.fairness, u, b)
      ensures Prefer(p.fairness, s.served, t, u) <==> LessServed(s.served, t, a, u, b)
    {
      PreferExact(p.fairness, s.served, t, a, u, b);
    }
    HasWeight(p.fairness, t);
    HasWeight(p.fairness, u);
  }

  lemma HasWeight(f: FairnessPolicy, t: U64)
    ensures exists a :: Weighs(f, t, a)
  {
    assert Weighs(f, t, Divisor(f, t));
  }

  // ---- what taking it changes ----

  /** The totals `u` count one member more. */
  predicate Added(b: Batch, u: Accum, m: Metadata) {
    && u.count == (|b.members| + 1) % 0x1_0000_0000
    && u.input == Wrapped(b.accum.input, m.input) && u.output == Wrapped(b.accum.output, m.output)
    && u.work == Wrapped(b.accum.work, m.work) && u.memory == Wrapped(b.accum.memory, m.memory)
  }

  /** Request `r` is in batch `bid` now: at the end of its list and in its totals, out of
      the index, and on the accounts of its tenant. Nothing else has changed. */
  ghost predicate Joined(s: State, s': State, bid: Id, r: Id) {
    && bid in s.batches && r in s.requests
    && var q, b := s.requests[r], s.batches[bid];
       && s'.requests == s.requests[r := q.(state := RequestState.Reserved, batch := bid, inWaiting := false)]
       && bid in s'.batches
       && s'.batches == s.batches[bid := b.(members := b.members + [r], accum := s'.batches[bid].accum,
                                            descriptor := if b.members == [] then q.meta.descriptor else b.descriptor)]
       && Added(b, s'.batches[bid].accum, q.meta)
       && Cancellation.Unqueued(s, s', r)
       && Admission.Charged(s.served, s'.served, q.meta.tenant, q.meta.work)
       && Admission.Charged(s.outstanding, s'.outstanding, q.meta.tenant, q.meta.work)
       && s' == s.(requests := s'.requests, batches := s'.batches, index := s'.index, served := s'.served, outstanding := s'.outstanding)
  }

  lemma PlaceExact(p: BatchPolicy, s: State, bid: Id, key: Key, r: Id)
    requires Inv(p, s) && bid in s.batches && r in s.requests && s.requests[r].key == key
    ensures Joined(s, Place(s, bid, key, r), bid, r)
  {
    hide Inv, IndexRemove, Admission.Charged, NoteWork, Buckets;
    var q := s.requests[r];
    Cancellation.OwnBucket(p, s, r);
    Cancellation.BucketsNonEmpty(s.requests, s.index);
    Cancellation.RemovedFrom(s.requests, s.index, key, r);
    Admission.Charges(s.served, q.meta.tenant, q.meta.work);
    Admission.Charges(s.outstanding, q.meta.tenant, q.meta.work);
  }

  // ---- the fill ----

  /** One turn of a fill over these candidates: nobody may join and the fill is over, or
      the one who comes first among those who may has joined, and the fill goes on. */
  ghost predicate Turn(p: BatchPolicy, s: State, s': State, bid: Id, cands: seq<Id>, now: int, x: Id) {
    && x in cands && MayJoin(p, s, bid, x, now)
    && (forall y :: y in cands && y != x && MayJoin(p, s, bid, y, now) ==> ComesFirst(p, s, x, y))
    && Joined(s, s', bid, x)
  }

  /** A fill takes turns until nobody may join. */
  lemma FillExact(p: BatchPolicy, s: State, bid: Id, key: Key, cands: seq<Id>, now: int)
    requires Inv(p, s) && FormingUnder(s.batches, bid, key) && Ready(s.requests, key, cands)
    ensures if forall c :: c in cands ==> !MayJoin(p, s, bid, c, now) then Fill(p, s, bid, key, cands, now) == s else
            exists s1, x :: Turn(p, s, s1, bid, cands, now, x) && bid in s1.batches
                            && Fill(p, s, bid, key, cands, now) == Fill(p, s1, bid, key, Without(cands, x), now)
  {
    hide Inv, Admissible, MayJoin, Before, ComesFirst, Joined, Place;
    var pool := Pool(p, s, bid, cands, now);
    forall c ensures Admissible(p, s, bid, c, now) <==> MayJoin(p, s, bid, c, now) { AdmissibleExact(p, s, bid, c, now); }
    if pool != [] {
      var x := Pick(p, s, pool);
      assert x in cands;
      PlaceExact(p, s, bid, key, x);
      forall y | y in cands && y != x && MayJoin(p, s, bid, y, now) ensures y in s.requests && ComesFirst(p, s, x, y) {
        assert y in pool;
        Choice.PickIsFirst(p, s, pool, y);
        BeforeExact(p, s, x, y);
      }
      assert Turn(p, s, Place(s, bid, key, x), bid, cands, now, x);
    } else {
      forall c | c in cands ensures !MayJoin(p, s, bid, c, now) { }
    }
  }

  /** When a fill of the whole bucket is over, nobody who is still in it may join. */
  lemma NobodyLeft(p: BatchPolicy, s: State, bid: Id, key: Key, now: int)
    requires Inv(p, s) && FormingUnder(s.batches, bid, key)
    ensures var s' := FillBatch(p, s, bid, key, now);
            forall c :: key in s'.index && c in s'.index[key] ==> !MayJoin(p, s', bid, c, now)
  {
    hide Inv, Admissible, MayJoin, FillBatch;
    FillBatchMaximal(p, s, bid, key, now);
    var s' := FillBatch(p, s, bid, key, now);
    forall c | key in s'.index && c in s'.index[key] ensures !MayJoin(p, s', bid, c, now) {
      assert c in Bucket(s'.index, key);
      AdmissibleExact(p, s', bid, c, now);
    }
  }

  // ---- a new batch ----

  /** A forming batch without members, under new numbers and the present epoch. */
  predicate Opened(s: State, s': State, key: Key, now: int) {
    && s.nextBatch in s'.batches
    && var b := s'.batches[s.nextBatch];
       && b.generation == s.nextGeneration && b.epoch == s.epoch && b.state.Forming? && b.key == key
       && b.members == [] && b.accum == Accum(0, 0, 0, 0, 0) && b.formed == now && b.parents == [] && b.children == []
       && b.worker == 0 && b.boot == 0 && b.outcomes == map[]
       && (key in s.index && s.index[key] != [] && s.index[key][0] in s.requests ==>
             b.phase == s.requests[s.index[key][0]].meta.descriptor.phase)
       && s' == s.(batches := s.batches[s.nextBatch := b], forming := s.forming[key := s.nextBatch],
                   nextBatch := s.nextBatch + 1, nextGeneration := s.nextGeneration + 1)
  }

  /** The clock of the batch started when its earliest member arrived. */
  predicate Since(rs: Requests, members: seq<Id>, now: int, t: int) {
    && t <= now && (forall r :: r in members && r in rs ==> t <= rs[r].submitted)
    && (t == now || exists r :: r in members && r in rs && rs[r].submitted == t)
  }

  lemma {:induction false} EarliestIsSince(rs: Requests, members: seq<Id>, now: int)
    ensures Since(rs, members, now, Earliest(rs, members, now))
  {
    if members != [] {
      var n := |members| - 1;
      EarliestIsSince(rs, members[..n], now);
      var t := Earliest(rs, members, now);
      assert members == members[..n] + [members[n]];
      forall r | r in members && r in rs ensures t <= rs[r].submitted {
        if r != members[n] { assert r in members[..n]; }
      }
      if r :| r in members[..n] && r in rs && rs[r].submitted == t { assert r in members; }
    }
  }

  /** Making a batch opens it, fills it from its bucket, and then sets its two times. */
  lemma MakeFormingExact(p: BatchPolicy, s: State, key: Key, now: int)
    requires s.nextBatch !in s.batches
    ensures exists s0 :: Opened(s, s0, key, now) && s.nextBatch in FillBatch(p, s0, s.nextBatch, key, now).batches
                         && Timed(p, FillBatch(p, s0, s.nextBatch, key, now), MakeForming(p, s, key, now), s.nextBatch, now)
  {
    hide Fill, AllowedWait, Earliest;
    var s0 := OpenForming(s, key, now);
    assert Opened(s, s0, key, now);
    var s1 := FillBatch(p, s0, s.nextBatch, key, now);
    TimedByMaking(p, s1, s.nextBatch, now);
  }

  /** Only the waiting limit and the clock of the batch have changed. */
  ghost predicate Timed(p: BatchPolicy, s: State, s': State, bid: Id, now: int) {
    && bid in s.batches && bid in s'.batches
    && s' == s.(batches := s.batches[bid := s.batches[bid].(allowedWait := s'.batches[bid].allowedWait, formed := s'.batches[bid].formed)])
    && Limits.Least(p, s.requests, s.batches[bid], now, s'.batches[bid].allowedWait)
    && Since(s.requests, s.batches[bid].members, now, s'.batches[bid].formed)
  }

  lemma TimedByMaking(p: BatchPolicy, s: State, bid: Id, now: int)
    requires bid in s.batches
    ensures Timed(p, s, Backdate(Retime(p, s, bid, now), bid, now), bid, now)
  {
    hide AllowedWait, Earliest, Limits.Least, Since;
    Limits.AllowedWaitIsLeast(p, s.requests, s.batches[bid], now);
    EarliestIsSince(s.requests, s.batches[bid].members, now);
  }
}
