/** What a split answers and changes, and which batches the end of a tick splits. */
module Splitting {
  import opened Types
  import opened Lists
  import opened Scheduler
  import opened Totals
  import Engine

  // ---- one split ----

  /** Neither at a worker nor over, and with at least two members. */
  predicate Divisible(s: State, bid: Id) {
    && bid in s.batches && |s.batches[bid].members| >= 2
    && var st := s.batches[bid].state; st.Forming? || st.Sealed? || st.PartiallyCompleted?
  }

  function Half(s: State, bid: Id): nat
    requires bid in s.batches
  {
    |s.batches[bid].members| / 2
  }

  /** The first half names the old batch, the second half the new one. */
  predicate Parted(s: State, s': State, bid: Id)
    requires bid in s.batches
  {
    var ms, h := s.batches[bid].members, Half(s, bid);
    && s'.requests.Keys == s.requests.Keys
    && forall r :: r in s.requests ==>
         s'.requests[r] == if r in ms[..h] then s.requests[r].(batch := bid)
                           else if r in ms[h..] then s.requests[r].(batch := s.nextBatch) else s.requests[r]
  }

  /** `c` has these members, with totals of its own, and is otherwise as `b` says. */
  predicate PartOf(rs: Requests, b: Batch, c: Batch, members: seq<Id>) {
    && c.members == members && c.accum == Wrap(Usage(rs, members))
    && (b.descriptor.model != [] ==> c.descriptor == b.descriptor)
    && c == b.(members := c.members, accum := c.accum, descriptor := c.descriptor, state := c.state, outcomes := c.outcomes,
               parents := c.parents, children := c.children)
  }

  /** A sealed batch is superseded: its second half goes on under one new number and its
      first half under another, which is the last in the queue. */
  predicate SealedParted(s: State, s': State, bid: Id)
    requires bid in s.batches
  {
    var b, h := s.batches[bid], Half(s, bid);
    var c: Id, f: Id := s.nextBatch, s.nextBatch + 1;
    && c in s'.batches && f in s'.batches && bid in s'.batches
    && PartOf(s'.requests, b, s'.batches[c], b.members[h..]) && s'.batches[c].state.Sealed?
    && s'.batches[c].parents == [bid, f] && s'.batches[c].children == [] && s'.batches[c].outcomes == map[]
    && PartOf(s'.requests, b, s'.batches[bid], b.members[..h]) && s'.batches[bid].state.Superseded?
    && s'.batches[bid].parents == b.parents && s'.batches[bid].children == b.children + [c, f] && s'.batches[bid].outcomes == b.outcomes
    && PartOf(s'.requests, b, s'.batches[f], b.members[..h]) && s'.batches[f].state.Sealed?
    && s'.batches[f].parents == [bid] && s'.batches[f].children == [c] && s'.batches[f].outcomes == map[]
    && s' == s.(requests := s'.requests, stats := s'.stats,
                batches := s.batches[c := s'.batches[c]][bid := s'.batches[bid]][f := s'.batches[f]],
                sealedOrder := WithoutFirst(s.sealedOrder, bid) + [f], nextBatch := s.nextBatch + 2)
  }

  /** Another batch keeps its first half and stays in its state; its second half goes on
      in the same state under a new number. */
  predicate OpenParted(s: State, s': State, bid: Id)
    requires bid in s.batches
  {
    var b, h, c := s.batches[bid], Half(s, bid), s.nextBatch;
    && c in s'.batches && bid in s'.batches
    && PartOf(s'.requests, b, s'.batches[c], b.members[h..]) && s'.batches[c].state == b.state
    && s'.batches[c].parents == [bid] && s'.batches[c].children == [] && s'.batches[c].outcomes == map[]
    && PartOf(s'.requests, b, s'.batches[bid], b.members[..h]) && s'.batches[bid].state == b.state
    && s'.batches[bid].parents == b.parents && s'.batches[bid].children == b.children + [c] && s'.batches[bid].outcomes == b.outcomes
    && s' == s.(requests := s'.requests, stats := s'.stats, batches := s.batches[c := s'.batches[c]][bid := s'.batches[bid]],
                forming := s.forming[b.key := bid], nextBatch := s.nextBatch + 1)
  }

  predicate Answered(s: State, s': State, bid: Id, code: Code) {
    && (code.Ok? <==> Divisible(s, bid)) && (code.Ok? || code.SplitRequired?)
    && if !code.Ok? then s' == s else
       && Parted(s, s', bid) && s'.stats == s.stats.(batchesSplit := s.stats.batchesSplit + 1)
       && if s.batches[bid].state.Sealed? then SealedParted(s, s', bid) else OpenParted(s, s', bid)
  }

  lemma PartExact(rs: Requests, b: Batch, members: seq<Id>, children: seq<Id>, parents: seq<Id>)
    ensures PartOf(rs, b, Offspring(rs, b, members, parents, children), members)
  {
    hide Tally, Usage, Wrap;
    TallyIsUsage(rs, members);
  }

  lemma RestExact(rs: Requests, b: Batch, children: seq<Id>, st: BatchState)
    ensures PartOf(rs, b, SplitRest(rs, b, children, st), b.members[..|b.members| / 2])
  {
    hide Tally, Usage, Wrap;
    TallyIsUsage(rs, b.members[..|b.members| / 2]);
  }

  lemma RequestsExact(s: State, s': State, bid: Id)
    requires bid in s.batches && s'.requests == SplitRequests(s, bid)
    ensures Parted(s, s', bid)
  {
  }

  lemma SealedExact(s: State, bid: Id)
    requires bid in s.batches && s.nextBatch !in s.batches && s.nextBatch + 1 !in s.batches && s.batches[bid].state.Sealed?
    ensures SealedParted(s, SplitSealed(s, bid), bid)
  {
    hide SplitRequests, Tally, Usage, Wrap, WithoutFirst, PartOf;
    var b, rs := s.batches[bid], SplitRequests(s, bid);
    var child: Id, firstId: Id := s.nextBatch, s.nextBatch + 1;
    var rest := SplitRest(rs, b, [child, firstId], BatchState.Superseded);
    PartExact(rs, b, b.members[|b.members| / 2..], [], [bid, firstId]);
    PartExact(rs, b.(descriptor := rest.descriptor), b.members[..|b.members| / 2], [child], [bid]);
    RestExact(rs, b, [child, firstId], BatchState.Superseded);
    SameDescriptor(rs, b, rest, Offspring(rs, b.(descriptor := rest.descriptor), b.members[..|b.members| / 2], [bid], [child]));
  }

  lemma SameDescriptor(rs: Requests, b: Batch, rest: Batch, f: Batch)
    requires PartOf(rs, b, rest, rest.members) && PartOf(rs, b.(descriptor := rest.descriptor), f, f.members)
    ensures PartOf(rs, b, f, f.members)
  {
    hide Usage, Wrap;
  }

  lemma OpenExact(s: State, bid: Id)
    requires bid in s.batches && s.nextBatch !in s.batches
    ensures OpenParted(s, SplitOpen(s, bid), bid)
  {
    hide SplitRequests, Tally, Usage, Wrap, PartOf;
    var b, rs := s.batches[bid], SplitRequests(s, bid);
    PartExact(rs, b, b.members[|b.members| / 2..], [], [bid]);
    RestExact(rs, b, [s.nextBatch], b.state);
  }

  /** Every split, the numbers to come being free. */
  lemma SplitExact(s: State, bid: Id)
    requires s.nextBatch !in s.batches && s.nextBatch + 1 !in s.batches
    ensures Answered(s, Split(s, bid).0, bid, Split(s, bid).1)
  {
    hide SplitSealed, SplitOpen, Parted, SealedParted, OpenParted;
    if Divisible(s, bid) {
      if s.batches[bid].state.Sealed? { SealedDone(s, bid); } else { OpenDone(s, bid); }
    }
  }

  lemma SealedDone(s: State, bid: Id)
    requires bid in s.batches && s.nextBatch !in s.batches && s.nextBatch + 1 !in s.batches && s.batches[bid].state.Sealed?
    ensures var s' := SplitSealed(s, bid).(stats := s.stats.(batchesSplit := s.stats.batchesSplit + 1));
            Parted(s, s', bid) && SealedParted(s, s', bid)
  {
    hide SplitSealed, SplitRequests, PartOf, Parted;
    var s' := SplitSealed(s, bid).(stats := s.stats.(batchesSplit := s.stats.batchesSplit + 1));
    SealedRequests(s, bid);
    RequestsExact(s, s', bid);
    SealedExact(s, bid);
  }

  lemma OpenDone(s: State, bid: Id)
    requires bid in s.batches && s.nextBatch !in s.batches
    ensures var s' := SplitOpen(s, bid).(stats := s.stats.(batchesSplit := s.stats.batchesSplit + 1));
            Parted(s, s', bid) && OpenParted(s, s', bid)
  {
    hide SplitOpen, SplitRequests, PartOf, Parted;
    var s' := SplitOpen(s, bid).(stats := s.stats.(batchesSplit := s.stats.batchesSplit + 1));
    OpenRequests(s, bid);
    RequestsExact(s, s', bid);
    OpenExact(s, bid);
  }

  lemma SealedRequests(s: State, bid: Id)
    requires bid in s.batches
    ensures SplitSealed(s, bid).requests == SplitRequests(s, bid)
  {
    hide SplitRequests;
  }

  lemma OpenRequests(s: State, bid: Id)
    requires bid in s.batches
    ensures SplitOpen(s, bid).requests == SplitRequests(s, bid)
  {
    hide SplitRequests;
  }

  // ---- the splits of a tick ----

  /** A sealed batch with more members than a worker takes. */
  predicate TooLong(s: State, bid: Id, limit: U32) {
    bid in s.batches && s.batches[bid].state.Sealed? && 0 < limit < s.batches[bid].accum.count
  }

  /** One place of the queue after the other; what is too long is split, which takes it
      out of the queue, and the scan goes on at the next place all the same. */
  lemma ScanExact(s: State, limit: U32, i: nat)
    requires s.nextBatch !in s.batches && s.nextBatch + 1 !in s.batches
    ensures if i >= |s.sealedOrder| then SplitRun(s, limit, i) == s
            else if TooLong(s, s.sealedOrder[i], limit) then
              exists s1, code :: Answered(s, s1, s.sealedOrder[i], code) && SplitRun(s, limit, i) == SplitRun(s1, limit, i + 1)
            else SplitRun(s, limit, i) == SplitRun(s, limit, i + 1)
  {
    hide Split, Answered;
    if i < |s.sealedOrder| && TooLong(s, s.sealedOrder[i], limit) { SplitExact(s, s.sealedOrder[i]); }
  }

  /** Places of the queue that have been passed keep their batches as they are. */
  lemma {:induction false} PassedStays(s: State, limit: U32, i: nat, k: nat)
    requires k < i <= |s.sealedOrder| && NoDup(s.sealedOrder) && Fresh(s)
    ensures var b, s' := s.sealedOrder[k], SplitRun(s, limit, i); b in s.batches ==> b in s'.batches && s'.batches[b] == s.batches[b]
    decreases |s.sealedOrder| - i
  {
    hide Split, Fresh;
    if i < |s.sealedOrder| {
      var bid := s.sealedOrder[i];
      if TooLong(s, bid, limit) {
        var s1 := Split(s, bid).0;
        SplitKeepsPlace(s, bid, i, k);
        PassedStays(s1, limit, i + 1, k);
      } else {
        PassedStays(s, limit, i + 1, k);
      }
    }
  }

  /** The numbers to come are free, in the table and in the queue. */
  predicate Fresh(s: State) {
    (forall b :: b in s.batches ==> b < s.nextBatch) && forall b :: b in s.sealedOrder ==> b < s.nextBatch
  }

  lemma SplitKeepsPlace(s: State, bid: Id, i: nat, k: nat)
    requires k < i < |s.sealedOrder| && s.sealedOrder[i] == bid && NoDup(s.sealedOrder) && Fresh(s)
    requires bid in s.batches && s.batches[bid].state.Sealed?
    ensures var s1 := Split(s, bid).0;
            && i + 1 <= |s1.sealedOrder| <= |s.sealedOrder| && NoDup(s1.sealedOrder) && Fresh(s1) && s1.sealedOrder[k] == s.sealedOrder[k]
            && (s.sealedOrder[k] in s.batches ==> s.sealedOrder[k] in s1.batches && s1.batches[s.sealedOrder[k]] == s.batches[s.sealedOrder[k]])
  {
    hide Split, WithoutFirst, Answered, TooLong;
    SplitShape(s, bid);
    var order, f: Id := s.sealedOrder, s.nextBatch + 1;
    assert order[k] != bid by { Apart(order, k, i); }
    assert bid !in order[..i] by { NotBefore(order, i); }
    Engine.FirstAt(order, bid, i);
    QueueMoves(order, i, k, f, s.nextBatch);
    var s1 := Split(s, bid).0;
    assert s1 == s || s1.sealedOrder == order[..i] + order[i + 1..] + [f];
  }

  /** What a split of a sealed batch does to the queue and to the other batches. */
  lemma SplitShape(s: State, bid: Id)
    requires bid in s.batches && s.batches[bid].state.Sealed? && Fresh(s)
    ensures var s1, f: Id := Split(s, bid).0, s.nextBatch + 1;
            && (s1 == s || (s1.sealedOrder == WithoutFirst(s.sealedOrder, bid) + [f] && s1.nextBatch == s.nextBatch + 2))
            && (forall x :: x in s1.batches ==> x < s1.nextBatch)
            && (forall x :: x in s.batches && x != bid ==> x in s1.batches && s1.batches[x] == s.batches[x])
  {
    hide Split, WithoutFirst, Parted, PartOf;
    SplitExact(s, bid);
  }

  lemma Apart(order: seq<Id>, k: nat, i: nat)
    requires k < i < |order| && NoDup(order)
    ensures order[k] != order[i]
  {
  }

  lemma NotBefore(order: seq<Id>, i: nat)
    requires i < |order| && NoDup(order)
    ensures order[i] !in order[..i]
  {
  }

  lemma QueueMoves(order: seq<Id>, i: nat, k: nat, f: Id, next: Id)
    requires k < i < |order| && NoDup(order) && (forall b :: b in order ==> b < next) && f == next + 1
    ensures var moved := order[..i] + order[i + 1..] + [f];
            NoDup(moved) && |moved| == |order| && moved[k] == order[k] && forall b :: b in moved ==> b < next + 2
  {
    var moved := order[..i] + order[i + 1..] + [f];
    assert forall j | 0 <= j < |moved| :: moved[j] == if j < i then order[j] else if j < |order| - 1 then order[j + 1] else f;
    forall b | b in moved ensures b < next + 2 {
      if b != f { assert b in order; }
    }
    forall x, y | 0 <= x < y < |moved| ensures moved[x] != moved[y] {
      if y == |order| - 1 { assert moved[x] in order; }
    }
  }

  /** So a batch behind one that is split is passed over, however long it is. */
  lemma NeighbourIsPassedOver(s: State, limit: U32, a: Id, b: Id)
    requires s.sealedOrder == [a, b] && a != b && Fresh(s) && TooLong(s, a, limit) && TooLong(s, b, limit) && |s.batches[a].members| >= 2
    ensures var s' := SplitRun(s, limit, 0);
            && a in s'.batches && s'.batches[a].state.Superseded? && b in s'.batches && s'.batches[b] == s.batches[b] && TooLong(s', b, limit)
  {
    hide Split, SplitRun, Parted, PartOf, WithoutFirst;
    var s1, f: Id := Split(s, a).0, s.nextBatch + 1;
    SplitExact(s, a);
    assert SplitRun(s, limit, 0) == SplitRun(s1, limit, 1) by { FirstSplit(s, limit); }
    assert s1.sealedOrder == [b, f] by { FrontGone(a, b); }
    PassedStays(s1, limit, 1, 0);
    SupersededStays(s1, limit, 1, a);
  }

  lemma FirstSplit(s: State, limit: U32)
    requires s.sealedOrder != [] && TooLong(s, s.sealedOrder[0], limit)
    ensures SplitRun(s, limit, 0) == SplitRun(Split(s, s.sealedOrder[0]).0, limit, 1)
  {
    hide Split;
  }

  lemma FrontGone(a: Id, b: Id)
    requires a != b
    ensures WithoutFirst([a, b], a) == [b]
  {
  }

  lemma {:induction false} SupersededStays(s: State, limit: U32, i: nat, x: Id)
    requires Fresh(s) && x in s.batches && s.batches[x].state.Superseded?
    ensures var s' := SplitRun(s, limit, i); x in s'.batches && s'.batches[x] == s.batches[x]
    decreases |s.sealedOrder| - i
  {
    hide Split, Fresh;
    if i < |s.sealedOrder| {
      var bid := s.sealedOrder[i];
      if TooLong(s, bid, limit) { SplitKeepsOther(s, bid, x); }
      SupersededStays(if TooLong(s, bid, limit) then Split(s, bid).0 else s, limit, i + 1, x);
    }
  }

  lemma SplitKeepsOther(s: State, bid: Id, x: Id)
    requires Fresh(s) && bid in s.batches && s.batches[bid].state.Sealed? && x in s.batches && x != bid && bid in s.sealedOrder
    ensures var s1 := Split(s, bid).0;
            Fresh(s1) && x in s1.batches && s1.batches[x] == s.batches[x] && |s1.sealedOrder| <= |s.sealedOrder|
  {
    hide Split, WithoutFirst, TooLong;
    SplitShape(s, bid);
  }
}
