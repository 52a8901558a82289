/** The fabric as the object it is: fields updated in place by loops over members
    and candidates. Each method is proved to do what the function of the same name
    in Scheduler says. */
module Engine {
  import opened Types
  import opened Policy
  import opened Lists
  import opened Fairness
  import opened Scheduler
  import Choice
  import Identity

  // ---- one step of each loop ----

  lemma AdvanceStep(rs: Requests, ms: seq<Id>, m: Id, from: RequestState, to: RequestState)
    requires from != to
    ensures var a := Advance(rs, ms, from, to);
            Advance(rs, ms + [m], from, to) == if m in a && a[m].state == from then a[m := a[m].(state := to)] else a
  {
  }

  lemma AdvanceNone(rs: Requests, from: RequestState, to: RequestState)
    ensures Advance(rs, [], from, to) == rs
  {
  }

  lemma RehomeStep(rs: Requests, ms: seq<Id>, m: Id, to: Id)
    ensures var a := Rehome(rs, ms, to);
            Rehome(rs, ms + [m], to) == if m in a then a[m := a[m].(batch := to)] else a
  {
  }

  lemma RehomeNone(rs: Requests, to: Id)
    ensures Rehome(rs, [], to) == rs
  {
  }

  lemma PlaceParts(s: State, bid: Id, key: Key, rid: Id)
    requires bid in s.batches && rid in s.requests
    ensures var b, r := s.batches[bid], s.requests[rid];
            Place(s, bid, key, rid)
            == s.(batches := s.batches[bid := Grown(b, rid, r.meta)], requests := s.requests[rid := Taken(r, bid)],
                  index := IndexRemove(s.index, key, rid),
                  served := NoteWork(s.served, r.meta.tenant, r.meta.work),
                  outstanding := NoteWork(s.outstanding, r.meta.tenant, r.meta.work))
  {
    hide Grown, Taken, IndexRemove, NoteWork;
  }

  lemma SplitSealedIs(s: State, bid: Id, child: Id, firstId: Id, rs: Requests, rest: Batch, c: Batch, f: Batch)
    requires bid in s.batches && child == s.nextBatch && firstId == s.nextBatch + 1 && rs == SplitRequests(s, bid)
    requires rest == SplitRest(rs, s.batches[bid], [child, firstId], BatchState.Superseded)
    requires var b := s.batches[bid];
             && c == Offspring(rs, b, b.members[|b.members| / 2..], [bid, firstId], [])
             && f == Offspring(rs, b.(descriptor := rest.descriptor), b.members[..|b.members| / 2], [bid], [child])
    ensures SplitSealed(s, bid)
            == s.(requests := rs, batches := s.batches[child := c][bid := rest][firstId := f],
                  sealedOrder := WithoutFirst(s.sealedOrder, bid) + [firstId], nextBatch := firstId + 1)
  {
    hide SplitRequests, Offspring, SplitRest, WithoutFirst;
  }

  lemma SplitOpenIs(s: State, bid: Id, rs: Requests, rest: Batch, c: Batch)
    requires bid in s.batches && rs == SplitRequests(s, bid)
    requires rest == SplitRest(rs, s.batches[bid], [s.nextBatch], s.batches[bid].state)
    requires var b := s.batches[bid]; c == Offspring(rs, b, b.members[|b.members| / 2..], [bid], [])
    ensures SplitOpen(s, bid)
            == s.(requests := rs, batches := s.batches[s.nextBatch := c][bid := rest],
                  forming := s.forming[s.batches[bid].key := bid], nextBatch := s.nextBatch + 1)
  {
    hide SplitRequests, Offspring, SplitRest, WithoutFirst;
  }

  lemma RestKey(rs: Requests, b: Batch, children: seq<Id>, st: BatchState)
    ensures SplitRest(rs, b, children, st).key == b.key
  {
  }

  /** The least candidate is the pick. */
  lemma LeastIsPick(p: BatchPolicy, s: State, pool: seq<Id>, x: Id)
    requires pool != [] && (forall c :: c in pool ==> c in s.requests) && x in pool
    requires forall y :: y in pool && y != x ==> Before(p, s, x, y)
    ensures x == Pick(p, s, pool)
  {
    hide Ratio;
    if x != Pick(p, s, pool) { Choice.PickIsFirst(p, s, pool, x); }
  }

  lemma {:induction false} FirstAt(xs: seq<Id>, x: Id, i: nat)
    requires i < |xs| && xs[i] == x && x !in xs[..i]
    ensures WithoutFirst(xs, x) == xs[..i] + xs[i + 1..]
  {
    if i > 0 {
      assert xs[0] == xs[..i][0] && xs[1..][..i - 1] == xs[..i][1..];
      FirstAt(xs[1..], x, i - 1);
      assert xs[..i] == [xs[0]] + xs[1..][..i - 1];
    }
  }

  /** std::find and erase. */
  method EraseFirst(xs: seq<Id>, x: Id) returns (r: seq<Id>)
    ensures r == WithoutFirst(xs, x)
  {
    hide WithoutFirst;
    for i := 0 to |xs|
      invariant x !in xs[..i]
    {
      if xs[i] == x {
        FirstAt(xs, x, i);
        return xs[..i] + xs[i + 1..];
      }
    }
    return xs;
  }

  /** std::remove and erase. */
  method EraseAll(xs: seq<Id>, x: Id) returns (r: seq<Id>)
    ensures r == Without(xs, x)
  {
    r := [];
    for i := 0 to |xs|
      invariant Without(xs, x) == r + Without(xs[i..], x)
    {
      assert xs[i..][0] == xs[i] && xs[i..][1..] == xs[i + 1..];
      if xs[i] != x { r := r + [xs[i]]; }
    }
  }

  lemma HandKeeps(s: State, bid: Id, worker: Id, boot: Id)
    requires bid in s.batches
    ensures bid in Hand(s, bid, worker, boot).batches
  {
  }

  lemma StartKeeps(s: State, bid: Id)
    requires bid in s.batches
    ensures bid in Start(s, bid).batches
  {
  }

  lemma SettleKeeps(s: State, rid: Id, aid: Id, st: RequestState, mc: MemberCompletion, now: int)
    requires rid in s.requests && aid in s.attempts
    ensures var s' := Settle(s, rid, aid, st, mc, now);
            s'.outstanding == s.outstanding && rid in s'.requests
  {
  }

  // ---- what the iterations visit ----

  predicate Late(rs: Requests, x: Id, now: int) { x in rs && Policy.Expired(rs[x].meta.deadline, now) }

  /** Exactly the indexed requests whose deadline has passed. */
  predicate WaitingScan(s: State, ids: seq<Id>, now: int) {
    && (forall x :: x in ids ==> Late(s.requests, x, now) && exists k :: k in s.index && x in s.index[k])
    && (forall k, x :: k in s.index && x in s.index[k] && Late(s.requests, x, now) ==> x in ids)
  }

  /** A registered forming batch lists the request. */
  predicate FormingLists(s: State, x: Id) {
    exists k :: k in s.forming && s.forming[k] in s.batches && x in s.batches[s.forming[k]].members
  }

  /** Exactly the members of registered forming batches whose deadline has passed. */
  predicate PlacedScan(s: State, ids: seq<Id>, now: int) {
    && (forall x :: x in ids ==> Late(s.requests, x, now) && FormingLists(s, x))
    && (forall k, x | k in s.forming && s.forming[k] in s.batches && x in s.batches[s.forming[k]].members ::
          Late(s.requests, x, now) ==> x in ids)
  }

  /** Exactly the keys that have a sealed batch, once each. */
  ghost predicate MergeScan(s: State, keys: seq<Key>) {
    NoDup(keys) && forall k :: k in keys <==> SealedOf(s.batches, s.sealedOrder, k) != []
  }

  ghost predicate Visits<T(!new)>(order: seq<T>, keys: set<T>) { NoDup(order) && forall k :: k in order <==> k in keys }

  /** A plan that visits what the tick's loops visit, in some order. */
  ghost predicate Observed(p: BatchPolicy, s: State, plan: Plan, now: int) {
    var s1 := Expire(p, s, plan.waiting, plan.placed, now);
    && WaitingScan(s, plan.waiting, now) && PlacedScan(ExpireWaiting(s, plan.waiting, now), plan.placed, now)
    && Visits(plan.newKeys, s1.index.Keys) && Visits(plan.formKeys, FormNew(p, s1, plan.newKeys, now).forming.Keys)
    && (if p.mergeEnabled then MergeScan(BeforeMerging(p, s, plan, now), plan.mergeKeys) else plan.mergeKeys == [])
  }

  /** The state in which the tick looks for batches to merge. */
  ghost function BeforeMerging(p: BatchPolicy, s: State, plan: Plan, now: int): State {
    var (s3, seals) := RefillAll(p, FormNew(p, Expire(p, s, plan.waiting, plan.placed, now), plan.newKeys, now), plan.formKeys, now);
    SealAll(s3, seals)
  }

  /** A split puts the first half at the end of the queue, so the queue keeps its
      length. */
  lemma SplitOrder(s: State, bid: Id)
    requires bid in s.sealedOrder
    ensures |Split(s, bid).0.sealedOrder| <= |s.sealedOrder|
  {
    hide SplitRequests, Offspring, SplitRest;
  }

  /** The keys of an unordered container, in some order. */
  method Enumerate<T(==)>(keys: set<T>) returns (order: seq<T>)
    ensures NoDup(order) && forall k :: k in order <==> k in keys
  {
    order := [];
    var rest := keys;
    while rest != {}
      invariant rest <= keys && NoDup(order) && forall k :: k in order <==> k in keys - rest
      decreases rest
    {
      var k :| k in rest;
      NoDupAppend(order, k);
      order := order + [k];
      rest := rest - {k};
    }
  }

  lemma SortedKnown(rs: Requests, groups: map<U64, seq<Id>>, good: seq<Id>, pool: seq<Id>)
    requires Sorted(rs, groups, good) && forall x :: x in good <==> x in pool
    ensures groups == map[] <==> pool == []
    ensures (forall c :: c in pool ==> c in rs) && forall t, x :: t in groups && x in groups[t] ==> x in rs
    ensures forall t :: t in groups ==> groups[t] != []
  {
    if pool != [] {
      assert pool[0] in good;
    }
    if groups != map[] {
      var t :| t in groups;
      assert groups[t][0] in good;
    }
  }

  lemma FrontIsLeast(p: BatchPolicy, s: State, groups: map<U64, seq<Id>>, good: seq<Id>, t: U64, x: Id)
    requires Sorted(s.requests, groups, good) && t in groups && x in groups[t]
    requires forall u :: u in groups && u != t ==> Prefer(p.fairness, s.served, t, u)
    requires forall y :: y in groups[t] && y != x && y in s.requests && x in s.requests ==> Choice.Earlier(s.requests, x, y)
    ensures x in good && forall y :: y in good && y != x ==> x in s.requests && y in s.requests && Before(p, s, x, y)
  {
    hide Ratio, Prefer;
    forall y | y in good && y != x ensures x in s.requests && y in s.requests && Before(p, s, x, y) {
      var u := s.requests[y].meta.tenant;
      assert u in groups && y in groups[u];
    }
  }

  /** `groups` sorts the requests of `good` by tenant. */
  predicate Sorted(rs: Requests, groups: map<U64, seq<Id>>, good: seq<Id>) {
    && (forall x :: x in good ==> x in rs && rs[x].meta.tenant in groups && x in groups[rs[x].meta.tenant])
    && (forall t :: t in groups ==> groups[t] != [])
    && (forall t, x :: t in groups && x in groups[t] ==> x in good && x in rs && rs[x].meta.tenant == t)
  }

  lemma SortedNone(rs: Requests)
    ensures Sorted(rs, map[], [])
  {
  }

  lemma SortedStep(rs: Requests, groups: map<U64, seq<Id>>, good: seq<Id>, x: Id)
    requires Sorted(rs, groups, good) && x in rs
    ensures var t := rs[x].meta.tenant;
            Sorted(rs, if t in groups then groups[t := groups[t] + [x]] else groups[t := [x]], good + [x])
  {
  }

  class Fabric {
    const policy: BatchPolicy
    var requests: Requests
    var attempts: Attempts
    var batches: Batches
    var workers: map<Id, Worker>
    var index: Index
    var forming: map<Key, Id>
    var sealedOrder: seq<Id>
    var served: map<U64, U64>
    var outstanding: map<U64, U64>
    var stats: Stats
    var epoch: Id
    var nextRequest: Id
    var nextBatch: Id
    var nextAttempt: Id
    var nextGeneration: Id

    ghost function View(): State
      reads this
    {
      State(requests, attempts, batches, workers, index, forming, sealedOrder, served, outstanding, stats, epoch,
            nextRequest, nextBatch, nextAttempt, nextGeneration)
    }

    constructor (policy: BatchPolicy)
      ensures this.policy == policy && View() == INITIAL
    {
      this.policy := policy;
      requests, attempts, batches := map[], map[], map[];
      workers := map[0 := Worker(0, 0, true)];
      index, forming, sealedOrder := map[], map[], [];
      served, outstanding := map[], map[];
      stats := NO_STATS;
      epoch, nextRequest, nextBatch, nextAttempt, nextGeneration := 1, 1, 1, 1, 1;
    }

    // ---- the waiting index ----

    method IndexAdd(key: Key, r: Id)
      modifies this`index
      ensures index == Scheduler.IndexAdd(old(index), key, r)
    {
      if key in index {
        index := index[key := index[key] + [r]];
      } else {
        assert [] + [r] == [r];
        index := index[key := [r]];
      }
    }

    method IndexRemove(key: Key, r: Id)
      modifies this`index
      ensures index == Scheduler.IndexRemove(old(index), key, r)
    {
      if key !in index { return; }
      var rest := EraseFirst(index[key], r);
      if rest == [] {
        index := index - {key};
      } else {
        index := index[key := rest];
      }
    }

    // ---- submission ----

    /** The two records of a new request. */
    method Enroll(meta: Metadata, key: Key, now: int, st: RequestState, outcome: U8, waiting: bool)
      modifies this
      ensures View() == Scheduler.Enroll(old(View()), meta, key, now, st, outcome, waiting)
      ensures stats == old(stats) && outstanding == old(outstanding)
    {
      hide Scheduler.IndexAdd;
      if waiting { IndexAdd(key, nextRequest); }
      requests := requests[nextRequest := Request(meta, st, nextAttempt, [nextAttempt], 0, now, key, waiting)];
      attempts := attempts[nextAttempt := Attempt(1, st, outcome, [], 0, 0)];
      nextRequest := nextRequest + 1;
      nextAttempt := nextAttempt + 1;
    }

    method Submit(meta: Metadata, now: int) returns (rid: Id, a: Admission)
      modifies this
      ensures View() == Scheduler.Submit(policy, old(View()), meta, now)
      ensures a == Admit(policy, old(View()), meta, now) && (!a.RejectedIdentity? ==> rid == old(nextRequest))
    {
      hide Identity.KeyOf, NoteWork, AtCap, Oversized, Policy.Expired, Scheduler.Enroll;
      if meta.descriptor.model == [] || meta.descriptor.revision == [] {
        stats := stats.(rejected := stats.rejected + 1);
        return 0, RejectedIdentity;
      }
      rid := nextRequest;
      var key := Identity.KeyOf(meta.descriptor);
      if Policy.Expired(meta.deadline, now) {
        Enroll(meta, key, now, RequestState.Expired, 4, false);
        stats := stats.(submitted := stats.submitted + 1, expired := stats.expired + 1);
        return rid, ExpiredOnArrival;
      }
      if Oversized(policy.budget, meta) {
        Enroll(meta, key, now, RequestState.Rejected, 2, false);
        stats := stats.(submitted := stats.submitted + 1, rejected := stats.rejected + 1);
        return rid, TooLarge;
      }
      if policy.fairness.enabled && AtCap(policy.fairness, outstanding, meta.tenant) {
        Enroll(meta, key, now, RequestState.Waiting, 0, false);
        stats := stats.(submitted := stats.submitted + 1, deferred := stats.deferred + 1);
        return rid, Deferred;
      }
      Enroll(meta, key, now, RequestState.Eligible, 0, true);
      stats := stats.(submitted := stats.submitted + 1, admitted := stats.admitted + 1);
      outstanding := NoteWork(outstanding, meta.tenant, meta.work);
      return rid, Admitted;
    }

    // ---- loops over members ----

    method MoveMembers(ms: seq<Id>, from: RequestState, to: RequestState)
      requires from != to
      modifies this`requests
      ensures requests == Advance(old(requests), ms, from, to)
    {
      hide Advance;
      AdvanceNone(requests, from, to);
      for i := 0 to |ms|
        invariant requests == Advance(old(requests), ms[..i], from, to)
      {
        AdvanceStep(old(requests), ms[..i], ms[i], from, to);
        assert ms[..i + 1] == ms[..i] + [ms[i]];
        if ms[i] in requests && requests[ms[i]].state == from {
          requests := requests[ms[i] := requests[ms[i]].(state := to)];
        }
      }
      assert ms[..|ms|] == ms;
    }

    method RehomeMembers(ms: seq<Id>, to: Id)
      modifies this`requests
      ensures requests == Rehome(old(requests), ms, to)
    {
      hide Rehome;
      RehomeNone(requests, to);
      for i := 0 to |ms|
        invariant requests == Rehome(old(requests), ms[..i], to)
      {
        RehomeStep(old(requests), ms[..i], ms[i], to);
        assert ms[..i + 1] == ms[..i] + [ms[i]];
        if ms[i] in requests {
          requests := requests[ms[i] := requests[ms[i]].(batch := to)];
        }
      }
      assert ms[..|ms|] == ms;
    }

    method Recount(b: Batch) returns (r: Batch)
      ensures r == Recompute(requests, b)
    {
      hide Add32, Add64;
      var accum, ms := ZERO, b.members;
      for i := 0 to |ms|
        invariant accum == Tally(requests, ms[..i])
      {
        assert ms[..i + 1][..i] == ms[..i];
        if ms[i] in requests {
          var m := requests[ms[i]].meta;
          accum := Accum(Add32(accum.count, 1), Add64(accum.input, m.input), Add64(accum.output, m.output),
                         Add64(accum.work, m.work), Add64(accum.memory, m.memory));
        }
      }
      assert ms[..|ms|] == ms;
      r := b.(accum := accum);
      if ms != [] && b.descriptor.model == [] && ms[0] in requests {
        r := r.(descriptor := requests[ms[0]].meta.descriptor);
      }
    }

    method ComputeAllowedWait(b: Batch, now: int) returns (w: int)
      ensures w == AllowedWait(policy, requests, b, now)
    {
      var ms := b.members;
      w := NO_DEADLINE;
      if policy.globalMaxWait > 0 { w := Min(w, policy.globalMaxWait); }
      for i := 0 to |ms|
        invariant w == MinWait(policy, requests, ms[..i], now)
      {
        assert ms[..i + 1][..i] == ms[..i];
        if ms[i] in requests {
          var m := requests[ms[i]].meta;
          if m.latency in policy.classWait { w := Min(w, policy.classWait[m.latency]); }
          if HasDeadline(m.deadline) {
            var remaining := Remaining(m.deadline, now);
            if remaining >= 0 { w := Min(w, remaining); }
          }
        }
      }
      assert ms[..|ms|] == ms;
      if policy.sealSolo && b.accum.count == 1 { w := 0; }
    }

    method TenantCount(ms: seq<Id>, t: U64) returns (n: U32)
      ensures n == CountTenant(requests, ms, t) % 0x1_0000_0000
    {
      n := 0;
      ghost var exact := 0;
      for i := 0 to |ms|
        invariant exact == CountTenant(requests, ms[..i], t) && n == exact % 0x1_0000_0000
      {
        assert ms[..i + 1][..i] == ms[..i];
        if ms[i] in requests && requests[ms[i]].meta.tenant == t {
          n := Add32(n, 1);
          exact := exact + 1;
        }
      }
      assert ms[..|ms|] == ms;
    }

    method EarliestArrival(ms: seq<Id>, now: int) returns (e: int)
      ensures e == Earliest(requests, ms, now)
    {
      e := now;
      for i := 0 to |ms|
        invariant e == Earliest(requests, ms[..i], now)
      {
        assert ms[..i + 1][..i] == ms[..i];
        if ms[i] in requests && requests[ms[i]].submitted < e { e := requests[ms[i]].submitted; }
      }
      assert ms[..|ms|] == ms;
    }

    // ---- filling a forming batch ----

    /** add_member_to_batch and the removal from the index. */
    method Place(bid: Id, key: Key, rid: Id)
      requires bid in batches && rid in requests
      modifies this
      ensures View() == Scheduler.Place(old(View()), bid, key, rid)
    {
      hide Scheduler.IndexRemove, NoteWork, Scheduler.Place, Grown, Taken;
      PlaceParts(View(), bid, key, rid);
      IndexRemove(key, rid);
      var r := requests[rid];
      var b := Grow(batches[bid], rid, r.meta);
      batches := batches[bid := b];
      requests := requests[rid := Taken(r, bid)];
      served := NoteWork(served, r.meta.tenant, r.meta.work);
      outstanding := NoteWork(outstanding, r.meta.tenant, r.meta.work);
    }

    static method Grow(b: Batch, rid: Id, m: Metadata) returns (c: Batch)
      ensures c == Grown(b, rid, m)
    {
      hide Add64;
      var members, a := b.members + [rid], b.accum;
      var accum := Accum(|members| % 0x1_0000_0000, Add64(a.input, m.input), Add64(a.output, m.output),
                         Add64(a.work, m.work), Add64(a.memory, m.memory));
      c := b.(members := members, accum := accum);
      if |members| == 1 { c := c.(descriptor := m.descriptor); }
    }

    method IsAdmissible(bid: Id, rid: Id, now: int) returns (ok: bool)
      requires bid in batches
      ensures ok == Admissible(policy, View(), bid, rid, now)
    {
      hide AllowsAdd, AtCap, CountTenant, Policy.Expired;
      if rid !in requests || !WaitingState(requests[rid].state) { return false; }
      var m := requests[rid].meta;
      if Policy.Expired(m.deadline, now) { return false; }
      if policy.fairness.enabled && AtCap(policy.fairness, outstanding, m.tenant) { return false; }
      if policy.fairness.maxContribution != 0 {
        var n := TenantCount(batches[bid].members, m.tenant);
        if n >= policy.fairness.maxContribution { return false; }
      }
      return AllowsAdd(policy.budget, batches[bid].accum, Load(m));
    }

    method Group(bid: Id, cands: seq<Id>, now: int) returns (groups: map<U64, seq<Id>>, ghost good: seq<Id>)
      requires bid in batches
      ensures Sorted(requests, groups, good)
      ensures forall x :: x in good <==> x in cands && Admissible(policy, View(), bid, x, now)
    {
      groups, good := map[], [];
      hide Admissible, Sorted;
      SortedNone(requests);
      for i := 0 to |cands|
        invariant Sorted(requests, groups, good)
        invariant forall x :: x in good <==> x in cands[..i] && Admissible(policy, View(), bid, x, now)
      {
        var x := cands[i];
        assert cands[..i + 1] == cands[..i] + [x];
        var ok := IsAdmissible(bid, x, now);
        if ok {
          Choice.AdmissibleKnown(policy, View(), bid, x, now);
          var t := requests[x].meta.tenant;
          SortedStep(requests, groups, good, x);
          groups := if t in groups then groups[t := groups[t] + [x]] else groups[t := [x]];
          good := good + [x];
        }
      }
      assert cands[..|cands|] == cands;
    }

    /** The front of one tenant's candidates once they are sorted by arrival. */
    method FrontOf(pool: seq<Id>) returns (x: Id)
      requires pool != [] && forall y :: y in pool ==> y in requests
      ensures x in pool && forall y :: y in pool && y != x ==> Choice.Earlier(requests, x, y)
    {
      x := pool[0];
      for i := 1 to |pool|
        invariant x in pool[..i] && forall y :: y in pool[..i] && y != x ==> Choice.Earlier(requests, x, y)
      {
        var y := pool[i];
        assert pool[..i + 1] == pool[..i] + [y];
        if requests[y].submitted < requests[x].submitted || (requests[y].submitted == requests[x].submitted && y < x) { x := y; }
      }
      assert pool[..|pool|] == pool;
    }

    /** Which candidate goes next: the least-served tenant's first in line. */
    method Choose(bid: Id, cands: seq<Id>, now: int) returns (pick: Option<Id>)
      requires bid in batches
      ensures var pool := Pool(policy, View(), bid, cands, now);
              if pool == [] then pick == None
              else (forall c :: c in pool ==> c in requests) && pick == Some(Pick(policy, View(), pool))
    {
      hide Admissible, Sorted, Pool, Pick, Prefer, Choice.Earlier, Before;
      var groups, good := Group(bid, cands, now);
      ghost var pool := Pool(policy, View(), bid, cands, now);
      SortedKnown(requests, groups, good, pool);
      if groups == map[] { return None; }
      var tenants := Enumerate(groups.Keys);
      var chosen := SelectNext(policy.fairness, served, tenants);
      var x := FrontOf(groups[chosen]);
      FrontIsLeast(policy, View(), groups, good, chosen, x);
      LeastIsPick(policy, View(), pool, x);
      return Some(x);
    }

    /** fill_forming. */
    method FillForming(bid: Id, key: Key, now: int)
      requires bid in batches
      modifies this
      ensures View() == FillBatch(policy, old(View()), bid, key, now)
    {
      hide Scheduler.Place, Pool, Pick, Scheduler.IndexRemove, Admissible;
      var cands := Bucket(index, key);
      ghost var s, start := View(), cands;
      while true
        invariant bid in batches && Fill(policy, View(), bid, key, cands, now) == Fill(policy, s, bid, key, start, now)
        decreases |cands|
      {
        var pick := Choose(bid, cands, now);
        if pick.None? { break; }
        assert pick.value in cands;
        Place(bid, key, pick.value);
        cands := EraseAll(cands, pick.value);
      }
    }

    // ---- forming, sealing ----

    method MakeForming(key: Key, now: int) returns (bid: Id)
      modifies this
      ensures View() == Scheduler.MakeForming(policy, old(View()), key, now) && bid == old(nextBatch)
    {
      hide FillBatch, AllowedWait, Earliest;
      bid := nextBatch;
      Open(key, now);
      FillForming(bid, key, now);
      var w := ComputeAllowedWait(batches[bid], now);
      batches := batches[bid := batches[bid].(allowedWait := w)];
      var e := EarliestArrival(batches[bid].members, now);
      batches := batches[bid := batches[bid].(formed := e)];
    }

    method Open(key: Key, now: int)
      modifies this
      ensures View() == OpenForming(old(View()), key, now)
    {
      hide Empty, Bucket;
      batches, forming, nextBatch, nextGeneration :=
        batches[nextBatch := Empty(requests, Bucket(index, key), nextGeneration, epoch, key, now)],
        forming[key := nextBatch], nextBatch + 1, nextGeneration + 1;
    }

    method Seal(bid: Id) returns (ok: bool)
      modifies this
      ensures View() == Scheduler.Seal(old(View()), bid).0 && ok == Scheduler.Seal(old(View()), bid).1
    {
      hide Advance;
      if bid !in batches || !batches[bid].state.Forming? { return false; }
      var b := batches[bid];
      batches := batches[bid := b.(state := BatchState.Sealed)];
      MoveMembers(b.members, RequestState.Reserved, RequestState.Batched);
      forming := forming - {b.key};
      sealedOrder := sealedOrder + [bid];
      stats := stats.(batchesSealed := stats.batchesSealed + 1);
      return true;
    }

    // ---- merging and splitting ----

    /** do_merge. The source does not exclude two equal numbers; here they are
        turned away. */
    method Merge(aid: Id, bid: Id) returns (code: Code)
      modifies this
      ensures View() == Scheduler.Merge(policy, old(View()), aid, bid).0
      ensures code == Scheduler.Merge(policy, old(View()), aid, bid).1
    {
      hide CanMerge, MergeDone;
      if aid == bid || aid !in batches || bid !in batches || !CanMerge(policy, batches[aid], batches[bid]) {
        return MergeRejected;
      }
      JoinBatches(aid, bid);
      return Ok;
    }

    method TakeMembers(aid: Id, bid: Id) returns (a: Batch)
      requires aid in batches && bid in batches
      modifies this`requests
      ensures MergeDone(old(View()), aid, bid)
              == old(View()).(requests := requests, batches := batches[aid := a][bid := Retired(batches[bid])],
                              sealedOrder := Without(sealedOrder, bid), forming := Redirected(forming, batches[bid].key, bid, aid),
                              stats := stats.(batchesMerged := stats.batchesMerged + 1))
    {
      hide Rehome, Absorbed, Without, Redirected, Retired;
      RehomeMembers(batches[bid].members, aid);
      a := Absorb(batches[aid], batches[bid], bid);
    }

    method JoinBatches(aid: Id, bid: Id)
      requires aid in batches && bid in batches
      modifies this
      ensures View() == MergeDone(old(View()), aid, bid)
    {
      hide MergeDone, Without, Retired;
      var key := batches[bid].key;
      var order := EraseAll(sealedOrder, bid);
      var a := TakeMembers(aid, bid);
      batches := batches[aid := a][bid := Retired(batches[bid])];
      sealedOrder := order;
      if key in forming && forming[key] == bid { forming := forming[key := aid]; }
      stats := stats.(batchesMerged := stats.batchesMerged + 1);
    }

    method Absorb(a: Batch, b: Batch, bid: Id) returns (c: Batch)
      ensures c == Absorbed(requests, a, b, bid)
    {
      hide Recompute;
      c := Recount(a.(members := a.members + b.members, parents := a.parents + b.parents + [bid],
                      children := a.children + b.children));
    }

    /** do_split. */
    method Split(bid: Id) returns (code: Code)
      modifies this
      ensures View() == Scheduler.Split(old(View()), bid).0 && code == Scheduler.Split(old(View()), bid).1
    {
      hide SplitSealed, SplitOpen;
      if bid !in batches || !Splittable(batches[bid]) { return SplitRequired; }
      if batches[bid].state.Sealed? {
        DivideSealed(bid);
      } else {
        DivideOpen(bid);
      }
      stats := stats.(batchesSplit := stats.batchesSplit + 1);
      return Ok;
    }

    method Part(bid: Id)
      requires bid in batches
      modifies this`requests
      ensures requests == SplitRequests(old(View()), bid)
    {
      hide Rehome;
      var ms := batches[bid].members;
      RehomeMembers(ms[|ms| / 2..], nextBatch);
      RehomeMembers(ms[..|ms| / 2], bid);
    }

    method Continue(b: Batch, members: seq<Id>, parents: seq<Id>, children: seq<Id>) returns (c: Batch)
      ensures c == Offspring(requests, b, members, parents, children)
    {
      hide Recompute;
      c := Recount(b.(members := members, outcomes := map[], parents := parents, children := children));
    }

    method Halve(b: Batch, children: seq<Id>, st: BatchState) returns (c: Batch)
      ensures c == SplitRest(requests, b, children, st)
    {
      hide Recompute;
      c := Recount(b.(members := b.members[..|b.members| / 2], children := b.children + children));
      c := c.(state := st);
    }

    /** The three records a sealed batch leaves behind. */
    method Thirds(b: Batch, bid: Id, child: Id, firstId: Id) returns (rest: Batch, c: Batch, f: Batch)
      ensures rest == SplitRest(requests, b, [child, firstId], BatchState.Superseded)
      ensures c == Offspring(requests, b, b.members[|b.members| / 2..], [bid, firstId], [])
      ensures f == Offspring(requests, b.(descriptor := rest.descriptor), b.members[..|b.members| / 2], [bid], [child])
    {
      hide Offspring, SplitRest;
      rest := Halve(b, [child, firstId], BatchState.Superseded);
      c := Continue(b, b.members[|b.members| / 2..], [bid, firstId], []);
      f := Continue(b.(descriptor := rest.descriptor), b.members[..|b.members| / 2], [bid], [child]);
    }

    /** Points the requests at their halves and builds the records. */
    method PartSealed(bid: Id) returns (child: Id, firstId: Id, rest: Batch, c: Batch, f: Batch)
      requires bid in batches
      modifies this`requests
      ensures SplitSealed(old(View()), bid)
              == old(View()).(requests := requests, batches := batches[child := c][bid := rest][firstId := f],
                              sealedOrder := WithoutFirst(sealedOrder, bid) + [firstId], nextBatch := firstId + 1)
    {
      hide SplitRequests, Offspring, SplitRest, WithoutFirst, SplitSealed;
      ghost var s := View();
      child, firstId := nextBatch, nextBatch + 1;
      Part(bid);
      rest, c, f := Thirds(batches[bid], bid, child, firstId);
      SplitSealedIs(s, bid, child, firstId, requests, rest, c, f);
    }

    method DivideSealed(bid: Id)
      requires bid in batches
      modifies this
      ensures View() == SplitSealed(old(View()), bid) && stats == old(stats)
    {
      hide WithoutFirst, SplitSealed;
      var child, firstId, rest, c, f := PartSealed(bid);
      batches := batches[child := c][bid := rest][firstId := f];
      nextBatch := firstId + 1;
      var order := EraseFirst(sealedOrder, bid);
      sealedOrder := order + [firstId];
    }

    method PartOpen(bid: Id) returns (rest: Batch, c: Batch)
      requires bid in batches
      modifies this`requests
      ensures SplitOpen(old(View()), bid)
              == old(View()).(requests := requests, batches := batches[nextBatch := c][bid := rest],
                              forming := forming[rest.key := bid], nextBatch := nextBatch + 1)
    {
      hide SplitRequests, Offspring, SplitRest, SplitOpen;
      ghost var s := View();
      Part(bid);
      var b := batches[bid];
      rest := Halve(b, [nextBatch], b.state);
      c := Continue(b, b.members[|b.members| / 2..], [bid], []);
      RestKey(requests, b, [nextBatch], b.state);
      SplitOpenIs(s, bid, requests, rest, c);
    }

    method DivideOpen(bid: Id)
      requires bid in batches
      modifies this
      ensures View() == SplitOpen(old(View()), bid) && stats == old(stats)
    {
      hide SplitOpen;
      var rest, c := PartOpen(bid);
      batches := batches[nextBatch := c][bid := rest];
      forming := forming[rest.key := bid];
      nextBatch := nextBatch + 1;
    }

    // ---- cancellation ----

    method EndAttempt(aid: Id, st: RequestState, outcome: U8, now: int)
      modifies this`attempts
      ensures attempts == SetAttempt(old(attempts), aid, st, outcome, now)
    {
      if aid in attempts {
        attempts := attempts[aid := attempts[aid].(state := st, outcome := outcome, completed := now)];
      }
    }

    method EndWaiting(rid: Id, st: RequestState, outcome: U8, now: int)
      requires rid in requests
      modifies this
      ensures View() == Scheduler.EndWaiting(old(View()), rid, st, outcome, now)
    {
      hide SetAttempt;
      requests := requests[rid := requests[rid].(state := st, inWaiting := false)];
      EndAttempt(requests[rid].current, st, outcome, now);
      if st.Expired? {
        stats := stats.(expired := stats.expired + 1);
      } else if st.Cancelled? {
        stats := stats.(cancelled := stats.cancelled + 1);
      }
    }

    method Shrink(b: Batch, rid: Id, now: int) returns (c: Batch)
      ensures c == Shrunk(policy, requests, b, rid, now)
    {
      hide Recompute, AllowedWait, Without;
      var members := EraseAll(b.members, rid);
      c := Recount(b.(members := members));
      var w := ComputeAllowedWait(c, now);
      c := c.(allowedWait := w);
    }

    method CancelForming(rid: Id, now: int)
      requires rid in requests && requests[rid].batch in batches
      modifies this
      ensures View() == Scheduler.CancelForming(policy, old(View()), rid, now)
    {
      hide Shrunk, SetAttempt;
      var r := requests[rid];
      var b := Shrink(batches[r.batch], rid, now);
      batches := batches[r.batch := b];
      requests := requests[rid := r.(state := RequestState.Cancelled, batch := 0)];
      EndAttempt(r.current, RequestState.Cancelled, 3, now);
      stats := stats.(cancelled := stats.cancelled + 1);
    }

    method CancelPlaced(rid: Id, now: int)
      requires rid in requests && requests[rid].batch in batches
      modifies this
      ensures View() == Scheduler.CancelPlaced(old(View()), rid, now)
    {
      hide SetAttempt;
      var r := requests[rid];
      var b := batches[r.batch];
      batches := batches[r.batch := b.(outcomes := b.outcomes[rid := 3])];
      requests := requests[rid := r.(state := RequestState.Cancelled)];
      EndAttempt(r.current, RequestState.Cancelled, 3, now);
      stats := stats.(cancelled := stats.cancelled + 1);
    }

    /** do_cancel. */
    method Cancel(rid: Id, now: int) returns (code: Code)
      modifies this
      ensures View() == Scheduler.Cancel(policy, old(View()), rid, now).0
      ensures code == Scheduler.Cancel(policy, old(View()), rid, now).1
    {
      hide Scheduler.EndWaiting, Scheduler.CancelForming, Scheduler.CancelPlaced, Scheduler.IndexRemove;
      if rid !in requests { return NotFound; }
      var r := requests[rid];
      if Terminal(r.state) { return InvalidState; }
      if !InBatch(r.state) {
        if r.inWaiting { IndexRemove(r.key, rid); }
        EndWaiting(rid, RequestState.Cancelled, 3, now);
        return Ok;
      }
      if r.batch !in batches { return InvalidState; }
      var st := batches[r.batch].state;
      if st.Forming? {
        CancelForming(rid, now);
        return Ok;
      }
      if st.Sealed? || st.Dispatched? || st.Running? {
        CancelPlaced(rid, now);
        return Ok;
      }
      return InvalidState;
    }

    // ---- expiry ----

    method ExpireOne(rid: Id, now: int)
      modifies this
      ensures View() == Scheduler.ExpireOne(old(View()), rid, now)
    {
      hide Scheduler.IndexRemove, Scheduler.EndWaiting;
      if rid !in requests { return; }
      IndexRemove(requests[rid].key, rid);
      if !Terminal(requests[rid].state) { EndWaiting(rid, RequestState.Expired, 4, now); }
    }

    method ExpireWaiting(ids: seq<Id>, now: int)
      modifies this
      ensures View() == Scheduler.ExpireWaiting(old(View()), ids, now)
    {
      hide Scheduler.ExpireOne;
      for i := 0 to |ids|
        invariant View() == Scheduler.ExpireWaiting(old(View()), ids[..i], now)
      {
        assert ids[..i + 1][..i] == ids[..i];
        ExpireOne(ids[i], now);
      }
      assert ids[..|ids|] == ids;
    }

    method CancelAll(ids: seq<Id>, now: int)
      modifies this
      ensures View() == Scheduler.CancelAll(policy, old(View()), ids, now)
    {
      hide Scheduler.Cancel;
      for i := 0 to |ids|
        invariant View() == Scheduler.CancelAll(policy, old(View()), ids[..i], now)
      {
        assert ids[..i + 1][..i] == ids[..i];
        var _ := Cancel(ids[i], now);
      }
      assert ids[..|ids|] == ids;
    }

    /** Those of `ids` whose deadline has passed. */
    method Overdue(ids: seq<Id>, now: int) returns (r: seq<Id>)
      ensures forall x :: x in r <==> x in ids && Late(requests, x, now)
    {
      r := [];
      for i := 0 to |ids|
        invariant forall x :: x in r <==> x in ids[..i] && Late(requests, x, now)
      {
        if ids[i] in requests && Policy.Expired(requests[ids[i]].meta.deadline, now) { r := r + [ids[i]]; }
      }
    }

    method ScanIndex(now: int) returns (r: seq<Id>)
      ensures WaitingScan(View(), r, now)
    {
      r := [];
      var keys := Enumerate(index.Keys);
      for i := 0 to |keys|
        invariant forall x :: x in r ==> Late(requests, x, now) && exists k :: k in keys[..i] && x in index[k]
        invariant forall k, x :: k in keys[..i] && x in index[k] && Late(requests, x, now) ==> x in r
      {
        var more := Overdue(index[keys[i]], now);
        r := r + more;
        assert keys[..i + 1] == keys[..i] + [keys[i]];
      }
      assert keys[..|keys|] == keys;
    }

    method ScanForming(now: int) returns (r: seq<Id>)
      ensures PlacedScan(View(), r, now)
    {
      r := [];
      var keys := Enumerate(forming.Keys);
      for i := 0 to |keys|
        invariant forall k, x | k in keys[..i] && forming[k] in batches && x in batches[forming[k]].members :: Late(requests, x, now) ==> x in r
        invariant forall x :: x in r ==> Late(requests, x, now) && FormingLists(View(), x)
      {
        if forming[keys[i]] in batches {
          var more := Overdue(batches[forming[keys[i]]].members, now);
          assert forall x :: x in more ==> FormingLists(View(), x);
          r := r + more;
        }
        assert keys[..i + 1] == keys[..i] + [keys[i]];
      }
      assert keys[..|keys|] == keys;
    }

    /** expire_locked. */
    method Expire(now: int) returns (ghost waiting: seq<Id>, ghost placed: seq<Id>)
      modifies this
      ensures View() == Scheduler.Expire(policy, old(View()), waiting, placed, now)
      ensures WaitingScan(old(View()), waiting, now)
      ensures PlacedScan(Scheduler.ExpireWaiting(old(View()), waiting, now), placed, now)
    {
      hide Scheduler.ExpireWaiting, Scheduler.CancelAll, WaitingScan, PlacedScan;
      var late := ScanIndex(now);
      ExpireWaiting(late, now);
      var lateMembers := ScanForming(now);
      CancelAll(lateMembers, now);
      waiting, placed := late, lateMembers;
    }

    // ---- the tick ----

    method FormNew(keys: seq<Key>, now: int)
      modifies this
      ensures View() == Scheduler.FormNew(policy, old(View()), keys, now)
    {
      hide Scheduler.MakeForming;
      for i := 0 to |keys|
        invariant View() == Scheduler.FormNew(policy, old(View()), keys[..i], now)
      {
        assert keys[..i + 1][..i] == keys[..i];
        if keys[i] !in forming { var _ := MakeForming(keys[i], now); }
      }
      assert keys[..|keys|] == keys;
    }

    method IsDrained(key: Key) returns (ok: bool)
      ensures ok == Drained(View(), key)
    {
      var ms := Bucket(index, key);
      for i := 0 to |ms|
        invariant forall m :: m in ms[..i] ==> !(m in requests && WaitingState(requests[m].state))
      {
        if ms[i] in requests && WaitingState(requests[ms[i]].state) {
          assert ms[i] in ms;
          return false;
        }
      }
      return true;
    }

    method Refill(key: Key, now: int) returns (seals: seq<Id>)
      modifies this
      ensures View() == Scheduler.Refill(policy, old(View()), key, now).0
      ensures seals == Scheduler.Refill(policy, old(View()), key, now).1
    {
      hide FillBatch, AllowedWait, Drained, SealNow;
      if key !in forming || forming[key] !in batches { return []; }
      var bid := forming[key];
      var own := batches[bid].key;
      FillForming(bid, own, now);
      var w := ComputeAllowedWait(batches[bid], now);
      batches := batches[bid := batches[bid].(allowedWait := w)];
      var drained := IsDrained(own);
      return if SealNow(policy, batches[bid], drained, now) then [bid] else [];
    }

    method RefillAll(keys: seq<Key>, now: int) returns (seals: seq<Id>)
      modifies this
      ensures (View(), seals) == Scheduler.RefillAll(policy, old(View()), keys, now)
    {
      hide Scheduler.Refill;
      seals := [];
      for i := 0 to |keys|
        invariant (View(), seals) == Scheduler.RefillAll(policy, old(View()), keys[..i], now)
      {
        assert keys[..i + 1][..i] == keys[..i];
        var more := Refill(keys[i], now);
        seals := seals + more;
      }
      assert keys[..|keys|] == keys;
    }

    method SealAll(ids: seq<Id>)
      modifies this
      ensures View() == Scheduler.SealAll(old(View()), ids)
    {
      hide Scheduler.Seal;
      for i := 0 to |ids|
        invariant View() == Scheduler.SealAll(old(View()), ids[..i])
      {
        assert ids[..i + 1][..i] == ids[..i];
        var _ := Seal(ids[i]);
      }
      assert ids[..|ids|] == ids;
    }

    /** The sealed batches in sealing order, by key. */
    method SealedByKey() returns (groups: map<Key, seq<Id>>)
      ensures forall k :: SealedOf(batches, sealedOrder, k) == if k in groups then groups[k] else []
      ensures forall k :: k in groups ==> groups[k] != []
    {
      groups := map[];
      for i := 0 to |sealedOrder|
        invariant forall k :: SealedOf(batches, sealedOrder[..i], k) == if k in groups then groups[k] else []
        invariant forall k :: k in groups ==> groups[k] != []
      {
        var bid := sealedOrder[i];
        assert sealedOrder[..i + 1][..i] == sealedOrder[..i];
        if bid in batches && batches[bid].state.Sealed? {
          var k := batches[bid].key;
          groups := groups[k := (if k in groups then groups[k] else []) + [bid]];
        }
      }
      assert sealedOrder[..|sealedOrder|] == sealedOrder;
    }

    method MergeRun(v: seq<Id>)
      modifies this
      ensures View() == Scheduler.MergeRun(policy, old(View()), v)
    {
      hide Scheduler.Merge;
      ghost var s := View();
      var i := 0;
      assert v[0..] == v;
      while i + 1 < |v| && stats.batchesMerged < policy.maxMerges
        invariant 0 <= i <= |v| && Scheduler.MergeRun(policy, View(), v[i..]) == Scheduler.MergeRun(policy, s, v)
      {
        assert v[i..][1..] == v[i + 1..];
        var _ := Merge(v[i], v[i + 1]);
        i := i + 1;
      }
    }

    method MergeAll() returns (ghost keys: seq<Key>)
      modifies this
      ensures View() == MergeKeys(policy, old(View()), old(batches), old(sealedOrder), keys)
      ensures MergeScan(old(View()), keys)
    {
      hide Scheduler.MergeRun, SealedOf;
      ghost var bs, order0 := batches, sealedOrder;
      var groups := SealedByKey();
      var order := Enumerate(groups.Keys);
      for i := 0 to |order|
        invariant View() == MergeKeys(policy, old(View()), bs, order0, order[..i])
      {
        assert order[..i + 1][..i] == order[..i];
        MergeRun(groups[order[i]]);
      }
      assert order[..|order|] == order;
      keys := order;
    }

    /** max_worker_batch_size. */
    method WorkerLimit() returns (m: U32)
      ensures IsWorkerLimit(workers, m)
    {
      var ids := Enumerate(workers.Keys);
      m := 0;
      for i := 0 to |ids|
        invariant if m == 0 then forall w :: w in ids[..i] && workers[w].live ==> workers[w].maxBatch == 0
                  else (exists w :: w in workers && workers[w].live && workers[w].maxBatch == m)
                       && (forall w :: w in ids[..i] && workers[w].live && workers[w].maxBatch != 0 ==> m <= workers[w].maxBatch)
      {
        var w := workers[ids[i]];
        assert ids[..i + 1] == ids[..i] + [ids[i]] && ids[i] in workers;
        if w.live && w.maxBatch != 0 && (m == 0 || w.maxBatch < m) { m := w.maxBatch; }
      }
      assert ids[..|ids|] == ids;
    }

    method SplitRun(limit: U32)
      modifies this
      ensures View() == Scheduler.SplitRun(old(View()), limit, 0)
    {
      hide Scheduler.Split;
      ghost var s := View();
      var i := 0;
      while i < |sealedOrder|
        invariant Scheduler.SplitRun(View(), limit, i) == Scheduler.SplitRun(s, limit, 0)
        decreases |sealedOrder| - i
      {
        var bid := sealedOrder[i];
        if bid in batches && batches[bid].state.Sealed? && limit != 0 && batches[bid].accum.count > limit {
          SplitOrder(View(), bid);
          var _ := Split(bid);
        }
        i := i + 1;
      }
    }

    /** do_tick. The plan is the record of the iteration orders. */
    method Tick(now: int) returns (ghost plan: Plan, ghost limit: U32)
      modifies this
      ensures View() == Scheduler.Tick(policy, old(View()), plan, limit, now)
      ensures Observed(policy, old(View()), plan, now) && IsWorkerLimit(old(workers), limit)
    {
      hide Scheduler.Expire, Scheduler.FormNew, Scheduler.RefillAll, Scheduler.SealAll, MergeKeys, Scheduler.SplitRun,
        WaitingScan, PlacedScan, IsWorkerLimit, MergeScan;
      ghost var waiting, placed := Expire(now);
      var keys := Enumerate(index.Keys);
      FormNew(keys, now);
      var formKeys := Enumerate(forming.Keys);
      var seals := RefillAll(formKeys, now);
      SealAll(seals);
      ghost var mergeKeys: seq<Key> := [];
      if policy.mergeEnabled { mergeKeys := MergeAll(); }
      var m := WorkerLimit();
      SplitRun(m);
      plan, limit := Plan(waiting, placed, keys, formKeys, mergeKeys), m;
    }

    // ---- dispatch ----

    method WorkOf(ms: seq<Id>) returns (work: seq<MemberWork>)
      ensures work == Work(requests, ms)
    {
      work := [];
      for i := 0 to |ms|
        invariant work == Work(requests, ms[..i])
      {
        assert ms[..i + 1][..i] == ms[..i];
        if ms[i] in requests {
          var r := requests[ms[i]];
          work := work + [MemberWork(ms[i], r.current, r.meta.work, r.meta.input, r.meta.output, r.meta.payload)];
        }
      }
      assert ms[..|ms|] == ms;
    }

    method Hand(bid: Id, worker: Id, boot: Id)
      requires bid in batches
      modifies this
      ensures View() == Scheduler.Hand(old(View()), bid, worker, boot)
    {
      hide Advance;
      var b := batches[bid];
      batches := batches[bid := b.(state := BatchState.Dispatched, worker := worker, boot := boot)];
      MoveMembers(b.members, RequestState.Batched, RequestState.Dispatched);
    }

    /** The message handed to the worker when the dispatch is accepted. */
    method PrepareDispatch(bid: Id, worker: Id, boot: Id) returns (code: Code, exec: Option<Execution>)
      modifies this
      ensures View() == Scheduler.PrepareDispatch(old(View()), bid, worker, boot).0
      ensures code == Scheduler.PrepareDispatch(old(View()), bid, worker, boot).1
      ensures exec == if code.Ok? && bid in batches then Some(ExecutionOf(View(), bid)) else None
    {
      hide Scheduler.Hand, Work;
      if bid !in batches { return NotFound, None; }
      if !batches[bid].state.Sealed? { return InvalidState, None; }
      if worker !in workers || !workers[worker].live || workers[worker].boot != boot { return StaleWorker, None; }
      HandKeeps(View(), bid, worker, boot);
      Hand(bid, worker, boot);
      var b := batches[bid];
      var work := WorkOf(b.members);
      return Ok, Some(Execution(bid, b.generation, b.epoch, b.worker, b.descriptor, work));
    }

    method Start(bid: Id)
      requires bid in batches
      modifies this
      ensures View() == Scheduler.Start(old(View()), bid)
    {
      hide Advance;
      var b := batches[bid];
      batches := batches[bid := b.(state := BatchState.Running)];
      MoveMembers(b.members, RequestState.Dispatched, RequestState.Running);
    }

    // ---- completion ----

    method Settle(rid: Id, aid: Id, st: RequestState, mc: MemberCompletion, now: int)
      requires rid in requests && aid in attempts
      modifies this
      ensures View() == Scheduler.Settle(old(View()), rid, aid, st, mc, now)
    {
      hide SetOutcome;
      var r := requests[rid];
      requests := requests[rid := r.(state := st)];
      var a := attempts[aid].(state := st, outcome := mc.status, completed := now);
      if st.Completed? {
        a := a.(result := mc.result);
      } else if st.Failed? {
        a := a.(error := mc.errorCode);
      }
      attempts := attempts[aid := a];
      Note(r.batch, mc.request, mc.status);
    }

    method Note(bid: Id, rid: Id, status: U8)
      modifies this`batches
      ensures batches == SetOutcome(old(batches), bid, rid, status)
    {
      if bid in batches {
        batches := batches[bid := batches[bid].(outcomes := batches[bid].outcomes[rid := status])];
      }
    }

    method Requeue(rid: Id, number: nat)
      requires rid in requests
      modifies this
      ensures View() == Scheduler.Requeue(old(View()), rid, number)
    {
      hide Scheduler.IndexAdd;
      var r, aid := requests[rid], nextAttempt;
      nextAttempt := nextAttempt + 1;
      attempts := attempts[aid := Attempt(number, RequestState.Eligible, 0, [], 0, 0)];
      requests := requests[rid := r.(current := aid, attempts := r.attempts + [aid],
                                     state := RequestState.Eligible, batch := 0, inWaiting := true)];
      IndexAdd(r.key, rid);
      stats := stats.(retried := stats.retried + 1);
    }

    /** apply_member_outcome. */
    method ApplyOutcome(rid: Id, aid: Id, mc: MemberCompletion, now: int)
      requires rid in requests && aid in attempts
      modifies this
      ensures View() == Scheduler.ApplyOutcome(policy, old(View()), rid, aid, mc, now)
    {
      hide Scheduler.Settle, Scheduler.Requeue, NoteDone, CountOutcome;
      var meta, number := requests[rid].meta, attempts[aid].number;
      var counted := Tallied(stats, mc.status, meta.work);
      if mc.status > 4 {
        stats := counted;
        return;
      }
      SettleKeeps(View(), rid, aid, OutcomeState(mc.status), mc, now);
      Settle(rid, aid, OutcomeState(mc.status), mc, now);
      stats := counted;
      if mc.status == 0 && policy.fairness.enabled { outstanding := NoteDone(outstanding, meta.tenant, meta.work); }
      if mc.status == 1 && policy.retryEnabled && number < policy.maxAttempts { Requeue(rid, number + 1); }
    }

    static method Tallied(t: Stats, status: U8, work: U64) returns (r: Stats)
      ensures r == CountOutcome(t, status, work)
    {
      r := t;
      if status == 0 {
        r := r.(completed := r.completed + 1);
        r := r.(totalWork := Add64(r.totalWork, work));
      } else if status == 1 {
        r := r.(retryableFailures := r.retryableFailures + 1);
      } else if status == 3 {
        r := r.(cancelled := r.cancelled + 1);
      } else if status == 4 {
        r := r.(expired := r.expired + 1);
      } else if status == 5 || status == 6 {
        r := r.(stale := r.stale + 1);
      }
    }

    method ReportOne(mc: MemberCompletion, now: int)
      modifies this
      ensures View() == Scheduler.ReportOne(policy, old(View()), mc, now)
    {
      hide Scheduler.ApplyOutcome;
      if mc.request !in requests { return; }
      if requests[mc.request].current != mc.attempt {
        stats := stats.(stale := stats.stale + 1);
        return;
      }
      if mc.attempt !in attempts { return; }
      var st := attempts[mc.attempt].state;
      if st.Completed? || st.Cancelled? || st.Expired? || st.Failed? { return; }
      ApplyOutcome(mc.request, mc.attempt, mc, now);
    }

    method ReportAll(ms: seq<MemberCompletion>, now: int)
      modifies this
      ensures View() == Scheduler.ReportAll(policy, old(View()), ms, now)
    {
      hide Scheduler.ReportOne;
      for i := 0 to |ms|
        invariant View() == Scheduler.ReportAll(policy, old(View()), ms[..i], now)
      {
        assert ms[..i + 1][..i] == ms[..i];
        ReportOne(ms[i], now);
      }
      assert ms[..|ms|] == ms;
    }

    method Finished(ms: seq<Id>) returns (done: bool)
      ensures done == AllTerminal(requests, ms)
    {
      done := true;
      for i := 0 to |ms|
        invariant done == AllTerminal(requests, ms[..i])
      {
        assert ms[..i + 1] == ms[..i] + [ms[i]];
        if ms[i] !in requests || !Terminal(requests[ms[i]].state) { done := false; }
      }
      assert ms[..|ms|] == ms;
    }

    method Close(bid: Id)
      modifies this
      ensures View() == Scheduler.Close(old(View()), bid)
    {
      hide AllTerminal;
      if bid !in batches { return; }
      var done := Finished(batches[bid].members);
      if done {
        batches := batches[bid := batches[bid].(state := BatchState.Completed)];
        stats := stats.(batchesCompleted := stats.batchesCompleted + 1);
      } else {
        batches := batches[bid := batches[bid].(state := BatchState.PartiallyCompleted)];
      }
    }

    /** do_complete. */
    method Complete(c: Completion, now: int) returns (code: Code)
      modifies this
      ensures View() == Scheduler.Complete(policy, old(View()), c, now).0
      ensures code == Scheduler.Complete(policy, old(View()), c, now).1
    {
      hide Scheduler.ReportAll, Scheduler.Close;
      if c.epoch != epoch {
        stats := stats.(stale := stats.stale + 1);
        return StaleEpoch;
      }
      if c.worker !in workers || !workers[c.worker].live || workers[c.worker].boot != c.boot {
        stats := stats.(stale := stats.stale + 1);
        return StaleWorker;
      }
      if c.batch !in batches {
        stats := stats.(stale := stats.stale + 1);
        return NotFound;
      }
      if batches[c.batch].generation != c.generation {
        stats := stats.(stale := stats.stale + 1);
        return StaleAttempt;
      }
      if !batches[c.batch].state.Dispatched? && !batches[c.batch].state.Running? { return InvalidState; }
      ReportAll(c.members, now);
      Close(c.batch);
      return Ok;
    }

    static method ReportSuccesses(results: seq<MemberResult>) returns (ms: seq<MemberCompletion>)
      ensures ms == Successes(results)
    {
      ms := [];
      for i := 0 to |results|
        invariant ms == Successes(results[..i])
      {
        ms := ms + [MemberCompletion(results[i].request, results[i].attempt, 0, results[i].output, 0, [])];
      }
      assert results[..|results|] == results;
    }

    /** do_dispatch_and_run around an executor that returned `results`. */
    method DispatchAndRun(bid: Id, worker: Id, results: seq<MemberResult>, now: int) returns (code: Code)
      modifies this
      ensures View() == Scheduler.DispatchAndRun(policy, old(View()), bid, worker, results, now).0
      ensures code == Scheduler.DispatchAndRun(policy, old(View()), bid, worker, results, now).1
    {
      hide Scheduler.Complete, Scheduler.Hand, Scheduler.Start, Successes;
      if bid !in batches { return NotFound; }
      if !batches[bid].state.Sealed? { return InvalidState; }
      var boot := if worker in workers then workers[worker].boot else 0;
      HandKeeps(View(), bid, worker, boot);
      Hand(bid, worker, boot);
      StartKeeps(View(), bid);
      Start(bid);
      var b := batches[bid];
      var ms := ReportSuccesses(results);
      code := Complete(Completion(worker, boot, b.epoch, b.generation, bid, ms), now);
    }

    method FailMembers(ms: seq<Id>, error: U32, message: Bytes, now: int)
      modifies this
      ensures View() == FailAll(policy, old(View()), ms, error, message, now)
    {
      hide Scheduler.ApplyOutcome;
      for i := 0 to |ms|
        invariant View() == FailAll(policy, old(View()), ms[..i], error, message, now)
      {
        assert ms[..i + 1][..i] == ms[..i];
        if ms[i] in requests && requests[ms[i]].current in attempts {
          var aid := requests[ms[i]].current;
          ApplyOutcome(ms[i], aid, MemberCompletion(ms[i], aid, 1, [], error, message), now);
        }
      }
      assert ms[..|ms|] == ms;
    }

    /** do_dispatch_and_run around an executor that failed. */
    method DispatchAndFail(bid: Id, worker: Id, error: U32, message: Bytes, now: int) returns (code: Code)
      modifies this
      ensures View() == Scheduler.DispatchAndFail(policy, old(View()), bid, worker, error, message, now).0
      ensures code == Scheduler.DispatchAndFail(policy, old(View()), bid, worker, error, message, now).1
    {
      hide FailAll, Scheduler.Hand, Scheduler.Start;
      if bid !in batches { return NotFound; }
      if !batches[bid].state.Sealed? { return InvalidState; }
      var boot := if worker in workers then workers[worker].boot else 0;
      HandKeeps(View(), bid, worker, boot);
      Hand(bid, worker, boot);
      StartKeeps(View(), bid);
      Start(bid);
      FailMembers(batches[bid].members, error, message, now);
      return ExecutorFailed;
    }

    // ---- retry, epochs and workers ----

    /** do_retry up to the tick it ends with. */
    method Retry(rid: Id, now: int) returns (code: Code)
      modifies this
      ensures View() == Scheduler.Retry(policy, old(View()), rid, now).0
      ensures code == Scheduler.Retry(policy, old(View()), rid, now).1
    {
      hide Scheduler.Requeue;
      if rid !in requests { return NotFound; }
      var r := requests[rid];
      var number := if r.current in attempts then attempts[r.current].number else 0;
      if number >= policy.maxAttempts { return InvalidState; }
      if Policy.Expired(r.meta.deadline, now) { return DeadlineExpired; }
      Requeue(rid, number + 1);
      return Ok;
    }

    /** do_retry: a successful retry ends with a tick. */
    method RetryAndTick(rid: Id, now: int) returns (code: Code, ghost plan: Plan, ghost limit: U32)
      modifies this
      ensures var (s1, c) := Scheduler.Retry(policy, old(View()), rid, now);
              && code == c && (!c.Ok? ==> View() == s1)
              && (c.Ok? ==> View() == Scheduler.Tick(policy, s1, plan, limit, now) && Observed(policy, s1, plan, now))
    {
      hide Scheduler.Retry, Scheduler.Tick, Observed, IsWorkerLimit;
      plan, limit := Plan([], [], [], [], []), 0;
      code := Retry(rid, now);
      if code.Ok? { plan, limit := Tick(now); }
    }

    method RollEpoch()
      modifies this
      ensures View() == Scheduler.RollEpoch(old(View()))
    {
      epoch := epoch + 1;
    }

    method RegisterWorker(worker: Id, boot: Id, maxBatch: U32)
      modifies this
      ensures View() == Scheduler.RegisterWorker(old(View()), worker, boot, maxBatch)
    {
      workers := workers[worker := Worker(maxBatch, boot, true)];
    }
  }
}
