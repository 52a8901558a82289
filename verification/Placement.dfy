/** Who is where: every live request is either in the waiting index or in exactly
    one active batch, and the two sides agree. */
module Placement {
  import opened Types
  import opened Lists
  import opened Scheduler

  predicate Active(st: BatchState) {
    st.Forming? || st.Sealed? || st.Dispatched? || st.Running?
  }

  /** The states a member may be in while its batch is active. */
  predicate MemberState(bst: BatchState, rst: RequestState) {
    match bst
    case Forming => rst.Reserved?
    case Sealed => rst.Batched? || Terminal(rst)
    case Dispatched => rst.Dispatched? || Terminal(rst)
    case Running => rst.Running? || Terminal(rst)
    case _ => true
  }

  /** The batch states that go with a live member's state. A member that a report
      left out stays behind in a partially completed batch. */
  predicate StateMatch(rst: RequestState, bst: BatchState) {
    match rst
    case Reserved => bst.Forming?
    case Batched => bst.Sealed?
    case Dispatched => bst.Dispatched? || bst.PartiallyCompleted?
    case Running => bst.Running? || bst.PartiallyCompleted?
    case _ => false
  }

  /** An active batch is the home of all its members. */
  predicate Home(rs: Requests, bid: Id, b: Batch) {
    Active(b.state) ==>
      forall m :: m in b.members ==> m in rs && rs[m].batch == bid && MemberState(b.state, rs[m].state)
  }

  /** A request in a batch state is listed by the batch it names. */
  predicate Housed(bs: Batches, r: Id, q: Request) {
    InBatch(q.state) ==> q.batch in bs && r in bs[q.batch].members && StateMatch(q.state, bs[q.batch].state)
  }

  /** All batches but `x`; batch numbers start at one, so zero exempts none. */
  predicate Homes(rs: Requests, bs: Batches, x: Id) {
    forall b :: b in bs && b != x ==> Home(rs, b, bs[b])
  }

  predicate Housing(rs: Requests, bs: Batches) {
    forall r :: r in rs ==> Housed(bs, r, rs[r])
  }

  predicate Distinct(bs: Batches) {
    forall b :: b in bs ==> NoDup(bs[b].members)
  }

  predicate Placed(rs: Requests, bs: Batches, x: Id) {
    Homes(rs, bs, x) && Housing(rs, bs) && Distinct(bs)
  }

  /** Exactly the eligible requests are in the index, under their own key; waiting
      requests name no batch. */
  predicate Waits(ix: Index, r: Id, q: Request) {
    && (q.inWaiting <==> q.state.Eligible?)
    && (q.inWaiting ==> q.key in ix && r in ix[q.key])
    && (WaitingState(q.state) || q.state.Rejected? ==> q.batch == 0)
    && !q.state.Created? && !q.state.SealedMember?
  }

  /** Neither queued nor about to be. */
  predicate OffQueue(q: Request) {
    && !q.inWaiting && !WaitingState(q.state) && !q.state.Created? && !q.state.SealedMember?
    && (q.state.Rejected? ==> q.batch == 0)
  }

  predicate BucketOk(rs: Requests, k: Key, v: seq<Id>) {
    v != [] && NoDup(v) && forall r :: r in v ==> r in rs && rs[r].inWaiting && rs[r].key == k
  }

  predicate Waitings(rs: Requests, ix: Index) {
    forall r :: r in rs ==> Waits(ix, r, rs[r])
  }

  predicate Buckets(rs: Requests, ix: Index) {
    forall k :: k in ix ==> BucketOk(rs, k, ix[k])
  }

  predicate Queued(rs: Requests, ix: Index) { Waitings(rs, ix) && Buckets(rs, ix) }

  /** One forming batch per key, and the map finds it. */
  predicate FormingExact(bs: Batches, fm: map<Key, Id>) {
    && (forall k :: k in fm ==> fm[k] in bs && bs[fm[k]].state.Forming? && bs[fm[k]].key == k)
    && (forall b :: b in bs && bs[b].state.Forming? ==> bs[b].key in fm && fm[bs[b].key] == b)
  }

  predicate Ordered(bs: Batches, order: seq<Id>) {
    && NoDup(order)
    && (forall b :: b in order ==> b in bs && !bs[b].state.Forming?)
    && (forall b :: b in bs && bs[b].state.Sealed? ==> b in order)
  }

  // ---- updates of one request ----

  lemma HomesRequest(rs: Requests, bs: Batches, x: Id, r: Id, q: Request)
    requires Homes(rs, bs, x)
    requires r in rs && rs[r].batch in bs && rs[r].batch != x && r in bs[rs[r].batch].members
             && Active(bs[rs[r].batch].state)
             ==> q.batch == rs[r].batch && MemberState(bs[q.batch].state, q.state)
    ensures Homes(rs[r := q], bs, x)
  {
    hide MemberState;
    forall b | b in bs && b != x ensures Home(rs[r := q], b, bs[b]) {
      assert Home(rs, b, bs[b]);
    }
  }

  lemma HousingRequest(rs: Requests, bs: Batches, r: Id, q: Request)
    requires Housing(rs, bs) && Housed(bs, r, q)
    ensures Housing(rs[r := q], bs)
  {
    hide Housed;
  }

  // ---- updates of one batch ----

  lemma HomesBatch(rs: Requests, bs: Batches, x: Id, bid: Id, b: Batch)
    requires Homes(rs, bs, x) && (bid == x || Home(rs, bid, b))
    ensures Homes(rs, bs[bid := b], x)
  {
    hide Home;
  }

  lemma HousingBatch(rs: Requests, bs: Batches, bid: Id, b: Batch)
    requires Housing(rs, bs)
    requires forall r :: r in rs && InBatch(rs[r].state) && rs[r].batch == bid ==>
                           r in b.members && StateMatch(rs[r].state, b.state)
    ensures Housing(rs, bs[bid := b])
  {
    hide StateMatch;
    forall r | r in rs ensures Housed(bs[bid := b], r, rs[r]) { assert Housed(bs, r, rs[r]); }
  }

  lemma DistinctBatch(bs: Batches, bid: Id, b: Batch)
    requires Distinct(bs) && NoDup(b.members)
    ensures Distinct(bs[bid := b])
  {
    hide NoDup;
  }

  /** Changes of a batch that keep its list and state. */
  lemma PlacedReshape(rs: Requests, bs: Batches, x: Id, bid: Id, b: Batch)
    requires Placed(rs, bs, x) && bid in bs && b.members == bs[bid].members && b.state == bs[bid].state
    ensures Placed(rs, bs[bid := b], x)
  {
    hide StateMatch, MemberState, NoDup;
    if bid != x { assert Home(rs, bid, bs[bid]); }
    assert Distinct(bs);
    HomesBatch(rs, bs, x, bid, b);
    forall r | r in rs && InBatch(rs[r].state) && rs[r].batch == bid
      ensures r in b.members && StateMatch(rs[r].state, b.state)
    {
      assert Housed(bs, r, rs[r]);
    }
    HousingBatch(rs, bs, bid, b);
    DistinctBatch(bs, bid, b);
  }

  /** A request that leaves all its batch's claims intact. */
  lemma PlacedRequest(rs: Requests, bs: Batches, x: Id, r: Id, q: Request)
    requires Placed(rs, bs, x) && Housed(bs, r, q)
    requires r in rs && rs[r].batch in bs && rs[r].batch != x && r in bs[rs[r].batch].members
             && Active(bs[rs[r].batch].state)
             ==> q.batch == rs[r].batch && MemberState(bs[q.batch].state, q.state)
    ensures Placed(rs[r := q], bs, x)
  {
    hide Homes, Housing, Distinct, MemberState, StateMatch;
    HomesRequest(rs, bs, x, r, q);
    HousingRequest(rs, bs, r, q);
  }

  // ---- the waiting index ----

  lemma BucketsRequest(rs: Requests, ix: Index, r: Id, q: Request)
    requires Buckets(rs, ix)
    requires forall k :: k in ix && r in ix[k] ==> q.inWaiting && q.key == k
    ensures Buckets(rs[r := q], ix)
  {
    hide NoDup;
    forall k | k in ix ensures BucketOk(rs[r := q], k, ix[k]) { assert BucketOk(rs, k, ix[k]); }
  }

  lemma WaitingsRequest(rs: Requests, ix: Index, r: Id, q: Request)
    requires Waitings(rs, ix) && Waits(ix, r, q)
    ensures Waitings(rs[r := q], ix)
  {
    hide Waits;
  }

  /** A request outside the index changes within its part of the life cycle. */
  lemma QueuedRequest(rs: Requests, ix: Index, r: Id, q: Request)
    requires Queued(rs, ix) && Waits(ix, r, q) && !q.inWaiting
    requires r in rs ==> !rs[r].inWaiting
    ensures Queued(rs[r := q], ix)
  {
    hide Waits;
    forall k | k in ix ensures r !in ix[k] { assert BucketOk(rs, k, ix[k]); }
    BucketsRequest(rs, ix, r, q);
    WaitingsRequest(rs, ix, r, q);
  }

  /** A request enters the index. */
  lemma QueuedAdd(rs: Requests, ix: Index, r: Id, q: Request)
    requires Queued(rs, ix) && q.inWaiting && q.state.Eligible? && q.batch == 0
    requires r in rs ==> !rs[r].inWaiting
    ensures Queued(rs[r := q], IndexAdd(ix, q.key, r))
  {
    var ix', rs' := IndexAdd(ix, q.key, r), rs[r := q];
    forall k | k in ix ensures r !in ix[k] { assert BucketOk(rs, k, ix[k]); }
    forall k | k in ix' ensures BucketOk(rs', k, ix'[k]) {
      if k in ix { assert BucketOk(rs, k, ix[k]); }
      if k == q.key { NoDupAppend(Bucket(ix, k), r); }
    }
    forall z | z in rs' ensures Waits(ix', z, rs'[z]) {
      if z != r { assert Waits(ix, z, rs[z]); }
    }
  }

  /** Removing a queued request leaves every other entry. */
  lemma IndexRemoveOthers(rs: Requests, ix: Index, r: Id)
    requires Queued(rs, ix) && r in rs && rs[r].inWaiting
    ensures var ix' := IndexRemove(ix, rs[r].key, r);
            && (forall k :: k in ix' ==> k in ix && ix'[k] != [] && NoDup(ix'[k]) && r !in ix'[k])
            && (forall k, z :: k in ix' && z in ix'[k] ==> z in ix[k])
            && (forall k, z :: k in ix && z in ix[k] && z != r ==> k in ix' && z in ix'[k])
  {
    var k := rs[r].key;
    assert Waits(ix, r, rs[r]) && BucketOk(rs, k, ix[k]);
    WithoutFirstIsWithout(ix[k], r);
    WithoutNoDup(ix[k], r);
    forall k' | k' in ix && r in ix[k'] ensures k' == k { assert BucketOk(rs, k', ix[k']); }
    forall k' | k' in ix ensures ix[k'] != [] && NoDup(ix[k']) { assert BucketOk(rs, k', ix[k']); }
  }

  /** A request leaves the index for good or for a batch. */
  lemma QueuedRemove(rs: Requests, ix: Index, r: Id, q: Request)
    requires Queued(rs, ix) && r in rs && rs[r].inWaiting
    requires OffQueue(q)
    ensures Queued(rs[r := q], IndexRemove(ix, rs[r].key, r))
  {
    hide NoDup, IndexRemove;
    var ix', rs' := IndexRemove(ix, rs[r].key, r), rs[r := q];
    IndexRemoveOthers(rs, ix, r);
    forall k | k in ix' ensures BucketOk(rs', k, ix'[k]) { assert BucketOk(rs, k, ix[k]); }
    forall z | z in rs' ensures Waits(ix', z, rs'[z]) {
      if z != r { assert Waits(ix, z, rs[z]); }
    }
  }

  /** Many requests outside the index move between batch states. */
  lemma QueuedFrame(rs: Requests, rs': Requests, ix: Index)
    requires Queued(rs, ix) && rs'.Keys == rs.Keys
    requires forall r :: r in rs ==> (rs'[r] == rs[r] || (OffQueue(rs[r]) && OffQueue(rs'[r])))
    ensures Queued(rs', ix)
  {
    hide NoDup;
    forall k | k in ix ensures BucketOk(rs', k, ix[k]) { assert BucketOk(rs, k, ix[k]); }
    forall r | r in rs' ensures Waits(ix, r, rs'[r]) { assert Waits(ix, r, rs[r]); }
  }
}
