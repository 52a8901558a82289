/** What sealing, merging and splitting answer and change, and which batches a tick merges
    and splits. */
module Merging {
  import opened Types
  import opened Policy
  import opened Lists
  import opened Scheduler
  import opened Totals
  import opened Invariant
  import opened Ticking
  import Engine
  import Joining

  // ---- sealing ----

  /** The reserved members are batched; no other record changes. */
  predicate Batched(s: State, s': State, members: seq<Id>) {
    && s'.requests.Keys == s.requests.Keys
    && forall r :: r in s.requests ==>
         s'.requests[r] == if r in members && s.requests[r].state.Reserved? then s.requests[r].(state := RequestState.Batched)
                           else s.requests[r]
  }

  /** A forming batch is sealed: it is the last in the queue and its key is free. */
  predicate SealAnswered(s: State, s': State, bid: Id, ok: bool) {
    && (ok <==> bid in s.batches && s.batches[bid].state.Forming?)
    && if !ok then s' == s else
       && Batched(s, s', s.batches[bid].members)
       && s' == s.(requests := s'.requests, batches := s.batches[bid := s.batches[bid].(state := BatchState.Sealed)],
                   forming := s.forming - {s.batches[bid].key}, sealedOrder := s.sealedOrder + [bid],
                   stats := s.stats.(batchesSealed := s.stats.batchesSealed + 1))
  }

  lemma SealExact(s: State, bid: Id)
    ensures SealAnswered(s, Seal(s, bid).0, bid, Seal(s, bid).1)
  {
  }

  // ---- merging ----

  /** Both amounts together are within every limit, as the machine adds them. */
  predicate Together(b: Budget, u: Accum, v: Accum) {
    && (b.maxRequests == 0 || (u.count + v.count) % 0x1_0000_0000 <= b.maxRequests)
    && (b.maxInput == 0 || Joining.Wrapped(u.input, v.input) <= b.maxInput)
    && (b.maxOutput == 0 || Joining.Wrapped(u.output, v.output) <= b.maxOutput)
    && (b.maxWork == 0 || Joining.Wrapped(u.work, v.work) <= b.maxWork)
    && (b.maxMemory == 0 || Joining.Wrapped(u.memory, v.memory) <= b.maxMemory)
  }

  /** Two different batches of one key and phase, both sealed or both forming, that fit
      together, with merging switched on. */
  predicate Mergeable(p: BatchPolicy, s: State, x: Id, y: Id) {
    && x != y && x in s.batches && y in s.batches && p.mergeEnabled
    && var a, b := s.batches[x], s.batches[y];
       && a.key == b.key && a.phase == b.phase && ((a.state.Sealed? && b.state.Sealed?) || (a.state.Forming? && b.state.Forming?))
       && Together(p.budget, a.accum, b.accum)
  }

  /** `y` has gone into `x`: its members follow those of `x` and name it, the totals are
      counted anew, and `y` is superseded and out of the queue. */
  predicate Merged(s: State, s': State, x: Id, y: Id)
    requires x in s.batches && y in s.batches
  {
    var a, b, c := s.batches[x], s.batches[y], if x in s'.batches then s'.batches[x] else s.batches[x];
    && s'.requests.Keys == s.requests.Keys
    && (forall r :: r in s.requests ==>
          s'.requests[r] == if r in b.members then s.requests[r].(batch := x) else s.requests[r])
    && c == a.(members := a.members + b.members, accum := Wrap(Usage(s'.requests, a.members + b.members)), descriptor := c.descriptor,
               parents := a.parents + b.parents + [y], children := a.children + b.children)
    && (a.descriptor.model != [] ==> c.descriptor == a.descriptor)
    && s' == s.(requests := s'.requests, batches := s.batches[x := c][y := b.(state := BatchState.Superseded)],
                sealedOrder := Without(s.sealedOrder, y),
                forming := if b.key in s.forming && s.forming[b.key] == y then s.forming[b.key := x] else s.forming,
                stats := s.stats.(batchesMerged := s.stats.batchesMerged + 1))
  }

  predicate MergeAnswered(p: BatchPolicy, s: State, s': State, x: Id, y: Id, code: Code) {
    && (code.Ok? <==> Mergeable(p, s, x, y)) && (code.Ok? || code.MergeRejected?)
    && if !code.Ok? then s' == s else Merged(s, s', x, y)
  }

  lemma MergeExact(p: BatchPolicy, s: State, x: Id, y: Id)
    ensures MergeAnswered(p, s, Merge(p, s, x, y).0, x, y, Merge(p, s, x, y).1)
  {
    hide Tally, Usage, Wrap, MergeDone, Merged, AllowsAdd, Together;
    if x in s.batches && y in s.batches {
      var a, b := s.batches[x], s.batches[y];
      TogetherExact(p.budget, a.accum, b.accum);
      if x != y { MergedExact(s, x, y); }
    }
  }

  lemma TogetherExact(b: Budget, u: Accum, v: Accum)
    ensures AllowsAdd(b, ZERO, Plus(u, v)) <==> Together(b, u, v)
  {
  }

  lemma MergedExact(s: State, x: Id, y: Id)
    requires x in s.batches && y in s.batches && x != y
    ensures Merged(s, MergeDone(s, x, y), x, y)
  {
    hide Tally, Usage, Wrap;
    var a, b := s.batches[x], s.batches[y];
    TallyIsUsage(Rehome(s.requests, b.members, x), a.members + b.members);
  }

  // ---- the merges of a tick ----

  /** The sealed batches of one key, in the order of the queue. */
  ghost predicate SealedList(s: State, key: Key, v: seq<Id>) {
    && (forall x :: x in v <==> x in s.sealedOrder && x in s.batches && s.batches[x].state.Sealed? && s.batches[x].key == key)
    && NoDup(v) && InOrder(s.sealedOrder, v)
  }

  /** The second list takes elements of the first one in their order. */
  predicate InOrder(order: seq<Id>, v: seq<Id>) {
    forall i, j, k, l :: 0 <= i < j < |v| && 0 <= k < |order| && 0 <= l < |order| && v[i] == order[k] && v[j] == order[l] ==> k < l
  }

  lemma {:induction false} SealedOfExact(bs: Batches, order: seq<Id>, key: Key)
    requires NoDup(order)
    ensures var v := SealedOf(bs, order, key);
            && (forall x :: x in v <==> x in order && x in bs && bs[x].state.Sealed? && bs[x].key == key)
            && NoDup(v) && InOrder(order, v)
  {
    if order != [] {
      var n := |order| - 1;
      SealedOfExact(bs, order[..n], key);
      var rest, v := SealedOf(bs, order[..n], key), SealedOf(bs, order, key);
      assert order == order[..n] + [order[n]];
      assert order[n] !in order[..n];
      forall i, j, k, l | 0 <= i < j < |v| && 0 <= k < |order| && 0 <= l < |order| && v[i] == order[k] && v[j] == order[l] ensures k < l {
        assert v[i] == rest[i] && rest[i] in order[..n];
        if j < |rest| { assert v[j] == rest[j] && rest[j] in order[..n] && order[..n][k] == order[k] && order[..n][l] == order[l]; }
      }
    }
  }

  /** `y` may go into `x`, and has. */
  predicate MergesTo(p: BatchPolicy, s: State, s': State, x: Id, y: Id) { Mergeable(p, s, x, y) && Merged(s, s', x, y) }

  lemma MergesExact(p: BatchPolicy, s: State, x: Id, y: Id)
    ensures var s' := Merge(p, s, x, y).0; if Mergeable(p, s, x, y) then MergesTo(p, s, s', x, y) else s' == s
  {
    hide Merge, Merged;
    MergeExact(p, s, x, y);
  }

  /** Neighbours are merged in pairs, the oldest first: a pair that has been merged is
      passed over as a whole, and of a pair that cannot be merged only the first. */
  lemma PairByPair(p: BatchPolicy, s: State, v: seq<Id>)
    ensures if |v| < 2 || s.stats.batchesMerged >= p.maxMerges then MergeRun(p, s, v) == s
            else if Mergeable(p, s, v[0], v[1]) then
              exists s1 :: MergesTo(p, s, s1, v[0], v[1]) && MergeRun(p, s, v) == MergeRun(p, s1, v[2..])
            else MergeRun(p, s, v) == MergeRun(p, s, v[1..])
  {
    hide Mergeable, MergesTo, Merge, MergeRun;
    OneRound(p, s, v);
    if |v| >= 2 && s.stats.batchesMerged < p.maxMerges {
      var s1 := Merge(p, s, v[0], v[1]).0;
      MergesExact(p, s, v[0], v[1]);
      if Mergeable(p, s, v[0], v[1]) {
        SecondIsPassedOver(p, s, s1, v[0], v[1..]);
        assert v[1..][1..] == v[2..];
      }
    }
  }

  lemma SecondIsPassedOver(p: BatchPolicy, s: State, s1: State, x: Id, rest: seq<Id>)
    requires rest != [] && MergesTo(p, s, s1, x, rest[0])
    ensures MergeRun(p, s1, rest) == MergeRun(p, s1, rest[1..])
  {
    hide MergesTo, MergeRun, Mergeable, Merge;
    OneRound(p, s1, rest);
    OneRound(p, s1, rest[1..]);
    if |rest| >= 2 && s1.stats.batchesMerged < p.maxMerges {
      MergedIsGone(p, s, s1, x, rest[0], rest[1]);
      MergesExact(p, s1, rest[0], rest[1]);
    }
  }

  lemma OneRound(p: BatchPolicy, s: State, v: seq<Id>)
    ensures MergeRun(p, s, v) == if |v| < 2 || s.stats.batchesMerged >= p.maxMerges then s else MergeRun(p, Merge(p, s, v[0], v[1]).0, v[1..])
  {
    hide Merge;
  }

  lemma MergedIsGone(p: BatchPolicy, s: State, s1: State, x: Id, y: Id, z: Id)
    requires MergesTo(p, s, s1, x, y)
    ensures !Mergeable(p, s1, y, z)
  {
    hide Usage, Wrap;
  }

  /** The states between the keys. */
  ghost predicate KeyByKey(p: BatchPolicy, between: seq<State>, s: State, keys: seq<Key>) {
    && |between| == |keys| + 1 && between[0] == s
    && forall i :: 0 <= i < |keys| ==> KeyDone(p, s, between[i], between[i + 1], keys[i])
  }

  /** The batches of this key that were sealed in `s` have been gone through. */
  ghost predicate KeyDone(p: BatchPolicy, s: State, a: State, b: State, key: Key) {
    exists v :: SealedList(s, key, v) && b == MergeRun(p, a, v)
  }

  lemma {:induction false} KeysInTurn(p: BatchPolicy, s: State, keys: seq<Key>) returns (between: seq<State>)
    requires NoDup(s.sealedOrder)
    ensures KeyByKey(p, between, s, keys) && between[|keys|] == MergeKeys(p, s, s.batches, s.sealedOrder, keys)
  {
    hide MergeRun, SealedOf, SealedList, KeyDone;
    if keys == [] {
      between := [s];
    } else {
      var n := |keys| - 1;
      var part := KeysInTurn(p, s, keys[..n]);
      between := part + [MergeKeys(p, s, s.batches, s.sealedOrder, keys)];
      ListDone(p, s, part[n], keys[n]);
      forall i | 0 <= i < |keys| ensures KeyDone(p, s, between[i], between[i + 1], keys[i]) {
        if i < n { assert keys[..n][i] == keys[i] && between[i] == part[i] && between[i + 1] == part[i + 1]; }
      }
    }
  }

  lemma ListDone(p: BatchPolicy, s: State, a: State, key: Key)
    requires NoDup(s.sealedOrder)
    ensures KeyDone(p, s, a, MergeRun(p, a, SealedOf(s.batches, s.sealedOrder, key)), key)
  {
    hide MergeRun, SealedOf, SealedList;
    ListOf(s, key);
  }

  lemma ListOf(s: State, key: Key)
    requires NoDup(s.sealedOrder)
    ensures SealedList(s, key, SealedOf(s.batches, s.sealedOrder, key))
  {
    hide SealedOf;
    SealedOfExact(s.batches, s.sealedOrder, key);
  }

  /** In a core run a tick ends with its merges: each key in turn, each list pair by
      pair; without the switch it ends with its seals. */
  lemma TickMerges(p: BatchPolicy, s: State, plan: Plan, limit: U32, now: int)
    requires Inv(p, s) && Expirable(s.requests, plan.waiting) && RoomyWorkers(p, limit)
    ensures var s4, s' := Engine.BeforeMerging(p, s, plan, now), Tick(p, s, plan, limit, now);
            if p.mergeEnabled then exists between :: KeyByKey(p, between, s4, plan.mergeKeys) && between[|plan.mergeKeys|] == s'
            else s' == s4
  {
    hide InvBut, Expire, FormNew, RefillAll, SealAll, MergeKeys, SplitRun, RoomyWorkers, Expirable, KeyByKey;
    var s1 := Expire(p, s, plan.waiting, plan.placed, now);
    ExpireGood(p, s, plan.waiting, plan.placed, now);
    var s2 := FormNew(p, s1, plan.newKeys, now);
    FormNewGood(p, s1, plan.newKeys, now);
    var (s3, seals) := RefillAll(p, s2, plan.formKeys, now);
    RefillAllGood(p, s2, plan.formKeys, now);
    var s4 := SealAll(s3, seals);
    SealAllGood(p, s3, seals);
    var s5 := MergeKeys(p, s4, s4.batches, s4.sealedOrder, plan.mergeKeys);
    MergeKeysGood(p, s4, s4.batches, s4.sealedOrder, plan.mergeKeys);
    InvCounts(p, s4);
    InvCounts(p, s5);
    SplitRunIdle(p, s4, limit, 0);
    SplitRunIdle(p, s5, limit, 0);
    OrderIsDistinct(p, s4);
    var between := KeysInTurn(p, s4, plan.mergeKeys);
  }

  lemma OrderIsDistinct(p: BatchPolicy, s: State)
    requires Inv(p, s)
    ensures NoDup(s.sealedOrder)
  {
  }

  /** The limit is one on all merges there have ever been: once it is reached, no tick
      merges anything, however many sealed batches fit together. */
  lemma LimitIsForGood(p: BatchPolicy, s: State, plan: Plan, limit: U32, now: int)
    requires Inv(p, s) && Expirable(s.requests, plan.waiting) && RoomyWorkers(p, limit)
    requires Engine.BeforeMerging(p, s, plan, now).stats.batchesMerged >= p.maxMerges
    ensures Tick(p, s, plan, limit, now) == Engine.BeforeMerging(p, s, plan, now)
  {
    hide InvBut, Tick, Engine.BeforeMerging, MergeRun, RoomyWorkers, Expirable, KeyDone;
    var s4 := Engine.BeforeMerging(p, s, plan, now);
    TickMerges(p, s, plan, limit, now);
    if p.mergeEnabled {
      var between :| KeyByKey(p, between, s4, plan.mergeKeys) && between[|plan.mergeKeys|] == Tick(p, s, plan, limit, now);
      StaysPut(p, between, s4, plan.mergeKeys, |plan.mergeKeys|);
    }
  }

  lemma {:induction false} StaysPut(p: BatchPolicy, between: seq<State>, s: State, keys: seq<Key>, i: nat)
    requires KeyByKey(p, between, s, keys) && s.stats.batchesMerged >= p.maxMerges && i <= |keys|
    ensures between[i] == s
  {
    if i > 0 {
      StaysPut(p, between, s, keys, i - 1);
      assert KeyDone(p, s, between[i - 1], between[(i - 1) + 1], keys[i - 1]);
    }
  }
}
