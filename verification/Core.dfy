/** The placement invariant of core runs, step by step. */
module Core {
  import opened Types
  import opened Policy
  import opened Lists
  import opened Scheduler
  import opened Placement
  import opened Wide

  /** The invariant with batch `x` exempt from the home condition. */
  predicate CoreBut(s: State, x: Id) {
    && Placed(s.requests, s.batches, x)
    && Queued(s.requests, s.index)
    && FormingExact(s.batches, s.forming)
    && Ordered(s.batches, s.sealedOrder)
  }

  predicate CoreInv(s: State) { CoreBut(s, 0) }

  // ---- counts and screening ----

  /** The count respects its limit, whatever the other limits are; while a batch is
      forming its count is the length of its list. */
  predicate CountOk(p: BatchPolicy, b: Batch) {
    && (p.budget.maxRequests != 0 ==>
          b.accum.count <= p.budget.maxRequests && (b.state.Forming? ==> |b.members| == b.accum.count))
    && Rooted(b)
  }

  /** Without splits a batch has no children, and each parent is a batch merged in. */
  predicate Rooted(b: Batch) { b.children == [] && 0 !in b.parents }

  predicate AllCountOk(p: BatchPolicy, bs: Batches) { forall b :: b in bs ==> CountOk(p, bs[b]) }

  /** Without public retries nothing that slips past the size test is ever queued. */
  predicate Bounded(p: BatchPolicy, rs: Requests, bs: Batches) { AllCountOk(p, bs) && Screened(p, rs) }

  /** No request or attempt is new. */
  predicate SameTries(rs: Requests, rs': Requests) {
    forall r :: r in rs' ==> r in rs && rs'[r].meta == rs[r].meta && |rs'[r].attempts| == |rs[r].attempts|
  }

  /** No batch is new, and none has another list, count, lineage or reason to be exact. */
  predicate SameCounts(bs: Batches, bs': Batches) { forall b :: b in bs' ==> b in bs && SameTotal(bs[b], bs'[b]) }

  predicate SameTotal(b: Batch, b': Batch) {
    && b'.members == b.members && b'.accum == b.accum && b'.parents == b.parents && b'.children == b.children
    && (b'.state.Forming? ==> b.state.Forming?)
  }

  lemma ScreenedFrame(p: BatchPolicy, rs: Requests, rs': Requests)
    requires Screened(p, rs) && SameTries(rs, rs')
    ensures Screened(p, rs')
  {
    hide Slips;
  }

  lemma BoundedFrame(p: BatchPolicy, rs: Requests, bs: Batches, rs': Requests, bs': Batches)
    requires Bounded(p, rs, bs) && SameTries(rs, rs') && SameCounts(bs, bs')
    ensures Bounded(p, rs', bs')
  {
    hide Screened, SameTries;
    ScreenedFrame(p, rs, rs');
    forall b | b in bs' ensures CountOk(p, bs'[b]) { assert CountOk(p, bs[b]); }
  }

  /** One batch is new or has another list. */
  lemma BoundedBatch(p: BatchPolicy, rs: Requests, bs: Batches, rs': Requests, x: Id, b: Batch)
    requires Bounded(p, rs, bs) && SameTries(rs, rs') && CountOk(p, b)
    ensures Bounded(p, rs', bs[x := b])
  {
    hide Screened, SameTries, CountOk;
    ScreenedFrame(p, rs, rs');
  }

  lemma TriesRefl(rs: Requests)
    ensures SameTries(rs, rs)
  {
  }

  lemma TriesUpdate(rs: Requests, r: Id, q: Request)
    requires r in rs && q.meta == rs[r].meta && |q.attempts| == |rs[r].attempts|
    ensures SameTries(rs, rs[r := q])
  {
  }

  lemma CountsRefl(bs: Batches)
    ensures SameCounts(bs, bs)
  {
  }

  lemma CountsUpdate(bs: Batches, x: Id, b: Batch)
    requires x in bs && SameTotal(bs[x], b)
    ensures SameCounts(bs, bs[x := b])
  {
  }

  /** A request with its first attempt. */
  lemma BoundedEnroll(p: BatchPolicy, rs: Requests, bs: Batches, r: Id, q: Request)
    requires Bounded(p, rs, bs) && |q.attempts| == 1
    ensures Bounded(p, rs[r := q], bs)
  {
    hide Slips, AllCountOk;
  }

  /** A further attempt for a member, which therefore does not slip. */
  lemma BoundedRequeue(p: BatchPolicy, rs: Requests, bs: Batches, k: Key, r: Id, q: Request)
    requires Bounded(p, rs, bs) && Candidate(p, rs, k, r) && q.meta == rs[r].meta
    ensures Bounded(p, rs[r := q], bs)
  {
    hide Slips, AllCountOk;
  }

  lemma AdvanceTries(rs: Requests, members: seq<Id>, from: RequestState, to: RequestState)
    ensures SameTries(rs, Advance(rs, members, from, to))
  {
  }

  lemma RehomeTries(rs: Requests, members: seq<Id>, to: Id)
    ensures SameTries(rs, Rehome(rs, members, to))
  {
  }

  /** A forming batch that takes in one more. */
  lemma CountedGrow(p: BatchPolicy, b: Batch, r: Id, m: Metadata)
    requires CountOk(p, b) && b.state.Forming? && AllowsAdd(p.budget, b.accum, Load(m))
    ensures CountOk(p, Grown(b, r, m))
  {
    hide Add64;
  }

  /** A forming batch that loses members. */
  lemma CountedShrink(p: BatchPolicy, rs: Requests, b: Batch, r: Id, now: int)
    requires CountOk(p, b) && b.state.Forming? && forall m :: m in b.members ==> m in rs
    ensures CountOk(p, Shrunk(p, rs, b, r, now))
  {
    hide Tally, MinWait;
    TallyCount(rs, Without(b.members, r));
  }

  lemma {:induction false} TallyCount(rs: Requests, ms: seq<Id>)
    requires forall m :: m in ms ==> m in rs
    ensures Tally(rs, ms).count == |ms| % 0x1_0000_0000
  {
    hide Add64;
    if ms != [] { TallyCount(rs, ms[..|ms| - 1]); }
  }

  /** Two sealed batches that pass the merge test. */
  lemma CountedJoin(p: BatchPolicy, rs: Requests, a: Batch, b: Batch, bid: Id)
    requires CanMerge(p, a, b) && a.state.Sealed? && a.accum == Tally(rs, a.members) && b.accum == Tally(rs, b.members)
    requires forall m :: m in a.members + b.members ==> m in rs
    requires bid != 0 && Rooted(a) && Rooted(b)
    ensures CountOk(p, Absorbed(rs, a, b, bid))
  {
    hide Tally, Add64, Add32, DescriptorFrom;
    assert forall m :: m in a.members ==> m in a.members + b.members;
    assert forall m :: m in b.members ==> m in a.members + b.members;
    TallyCount(rs, a.members);
    TallyCount(rs, b.members);
    TallyCount(rs, a.members + b.members);
    CountsAdd(|a.members|, |b.members|);
    var c := Absorbed(rs, a, b, bid);
    assert c.accum.count == Add32(a.accum.count, b.accum.count);
    assert Rooted(c);
  }

  lemma CountsAdd(m: nat, n: nat)
    ensures Add32(m % 0x1_0000_0000, n % 0x1_0000_0000) == (m + n) % 0x1_0000_0000
  {
  }

  lemma FormingReshape(bs: Batches, fm: map<Key, Id>, bid: Id, b: Batch)
    requires FormingExact(bs, fm) && bid in bs
    requires b.key == bs[bid].key && (b.state.Forming? <==> bs[bid].state.Forming?)
    ensures FormingExact(bs[bid := b], fm)
  {
  }

  lemma OrderedReshape(bs: Batches, order: seq<Id>, bid: Id, b: Batch)
    requires Ordered(bs, order) && bid in bs
    requires (b.state.Forming? ==> bs[bid].state.Forming?) && (b.state.Sealed? ==> bs[bid].state.Sealed?)
    ensures Ordered(bs[bid := b], order)
  {
    hide NoDup;
  }

  // ---- submission ----

  lemma EnrollCore(s: State, meta: Metadata, key: Key, now: int, st: RequestState, outcome: U8, waiting: bool)
    requires Numbered(s) && CoreInv(s)
    requires st.Expired? || st.Rejected? || st.Waiting? || st.Eligible?
    requires waiting <==> st.Eligible?
    ensures CoreInv(Enroll(s, meta, key, now, st, outcome, waiting))
  {
    hide Placed, Queued, FormingExact, Ordered, IndexAdd;
    var rid := s.nextRequest;
    var q := Request(meta, st, s.nextAttempt, [s.nextAttempt], 0, now, key, waiting);
    PlacedRequest(s.requests, s.batches, 0, rid, q);
    if waiting { QueuedAdd(s.requests, s.index, rid, q); } else { QueuedRequest(s.requests, s.index, rid, q); }
  }

  // ---- forming and filling ----

  lemma PlaceHome(rs: Requests, bid: Id, b: Batch, r: Id, q: Request, b': Batch)
    requires Home(rs, bid, b) && b.state.Forming? && b'.state.Forming? && b'.members == b.members + [r]
    requires r in rs && rs[r].batch != bid && q.batch == bid && q.state.Reserved?
    ensures Home(rs[r := q], bid, b')
    ensures r !in b.members
  {
  }

  lemma PlacePlaced(rs: Requests, bs: Batches, bid: Id, r: Id, q: Request, b': Batch)
    requires Placed(rs, bs, 0) && 0 !in bs && bid in bs && bs[bid].state.Forming?
    requires b'.state.Forming? && b'.members == bs[bid].members + [r]
    requires r in rs && WaitingState(rs[r].state) && rs[r].batch == 0 && q.batch == bid && q.state.Reserved?
    ensures Placed(rs[r := q], bs[bid := b'], 0)
  {
    hide Home, NoDup, MemberState;
    var rs', bs' := rs[r := q], bs[bid := b'];
    assert Home(rs, bid, bs[bid]) && NoDup(bs[bid].members);
    PlaceHome(rs, bid, bs[bid], r, q, b');
    HomesRequest(rs, bs, 0, r, q);
    HomesBatch(rs', bs, 0, bid, b');
    forall z | z in rs && InBatch(rs[z].state) && rs[z].batch == bid
      ensures z in b'.members && StateMatch(rs[z].state, b'.state)
    {
      assert Housed(bs, z, rs[z]);
    }
    HousingBatch(rs, bs, bid, b');
    HousingRequest(rs, bs', r, q);
    NoDupAppend(bs[bid].members, r);
    DistinctBatch(bs, bid, b');
  }

  lemma WaitsOf(s: State, r: Id)
    requires Queued(s.requests, s.index) && r in s.requests
    ensures Waits(s.index, r, s.requests[r])
  {
  }

  lemma NoBatchZero(s: State)
    requires Numbered(s)
    ensures 0 !in s.batches && s.nextBatch !in s.batches && s.nextRequest !in s.requests && s.nextAttempt !in s.attempts
  {
  }

  lemma PlaceCore(s: State, bid: Id, key: Key, rid: Id)
    requires Numbered(s) && CoreInv(s)
    requires bid in s.batches && s.batches[bid].state.Forming? && s.batches[bid].key == key
    requires rid in s.requests && s.requests[rid].inWaiting && s.requests[rid].key == key
    ensures CoreInv(Place(s, bid, key, rid))
  {
    hide Numbered, Placed, Queued, FormingExact, Ordered, IndexRemove;
    var s' := Place(s, bid, key, rid);
    NoBatchZero(s);
    WaitsOf(s, rid);
    PlacePlaced(s.requests, s.batches, bid, rid, s'.requests[rid], s'.batches[bid]);
    QueuedRemove(s.requests, s.index, rid, s'.requests[rid]);
    FormingReshape(s.batches, s.forming, bid, s'.batches[bid]);
    OrderedReshape(s.batches, s.sealedOrder, bid, s'.batches[bid]);
  }

  /** Changes of one batch that keep its list, key and state. */
  lemma ReshapeCore(s: State, x: Id, bid: Id, b: Batch)
    requires CoreBut(s, x) && bid in s.batches
    requires b.members == s.batches[bid].members && b.key == s.batches[bid].key && b.state == s.batches[bid].state
    ensures CoreBut(s.(batches := s.batches[bid := b]), x)
  {
    hide Placed, Queued, FormingExact, Ordered;
    PlacedReshape(s.requests, s.batches, x, bid, b);
    FormingReshape(s.batches, s.forming, bid, b);
    OrderedReshape(s.batches, s.sealedOrder, bid, b);
  }

  lemma OpenFormingCore(s: State, key: Key, now: int)
    requires Numbered(s) && CoreInv(s) && key !in s.forming
    ensures CoreInv(OpenForming(s, key, now))
  {
    hide Numbered, Placed, Queued;
    var s' := OpenForming(s, key, now);
    var bid, b := s.nextBatch, s'.batches[s.nextBatch];
    NoBatchZero(s);
    OpenPlaced(s.requests, s.batches, bid, b);
  }

  lemma OpenPlaced(rs: Requests, bs: Batches, bid: Id, b: Batch)
    requires Placed(rs, bs, 0) && bid !in bs && b.members == []
    ensures Placed(rs, bs[bid := b], 0)
  {
    hide Homes, Housing, Distinct, StateMatch;
    HomesBatch(rs, bs, 0, bid, b);
    forall r | r in rs && InBatch(rs[r].state) ensures rs[r].batch != bid { HousedIn(rs, bs, r); }
    HousingBatch(rs, bs, bid, b);
    DistinctBatch(bs, bid, b);
  }

  lemma HousedIn(rs: Requests, bs: Batches, r: Id)
    requires Housing(rs, bs) && r in rs
    ensures Housed(bs, r, rs[r])
  {
  }

  // ---- sealing, dispatching, starting ----

  /** A batch and its live members move to the next stage together. */
  predicate Stage(bst: BatchState, from: RequestState, bst': BatchState, to: RequestState) {
    || (bst.Forming? && from.Reserved? && bst'.Sealed? && to.Batched?)
    || (bst.Sealed? && from.Batched? && bst'.Dispatched? && to.Dispatched?)
    || (bst.Dispatched? && from.Dispatched? && bst'.Running? && to.Running?)
  }

  lemma StageHomes(rs: Requests, bs: Batches, bid: Id, b: Batch, from: RequestState, to: RequestState)
    requires Homes(rs, bs, 0) && bid in bs && bid != 0 && b.members == bs[bid].members
    requires Stage(bs[bid].state, from, b.state, to)
    ensures Homes(Advance(rs, b.members, from, to), bs[bid := b], 0)
  {
    var rs', bs' := Advance(rs, b.members, from, to), bs[bid := b];
    assert Home(rs, bid, bs[bid]);
    forall z | z in bs' && z != 0 ensures Home(rs', z, bs'[z]) {
      if z != bid { assert Home(rs, z, bs[z]); }
    }
  }

  lemma StageHousing(rs: Requests, bs: Batches, bid: Id, b: Batch, from: RequestState, to: RequestState)
    requires Homes(rs, bs, 0) && Housing(rs, bs) && bid in bs && bid != 0 && b.members == bs[bid].members
    requires Stage(bs[bid].state, from, b.state, to)
    ensures Housing(Advance(rs, b.members, from, to), bs[bid := b])
  {
    var rs' := Advance(rs, b.members, from, to);
    assert Home(rs, bid, bs[bid]);
    forall r | r in rs' ensures Housed(bs[bid := b], r, rs'[r]) { assert Housed(bs, r, rs[r]); }
  }

  lemma StagePlaced(rs: Requests, bs: Batches, bid: Id, b: Batch, from: RequestState, to: RequestState)
    requires Placed(rs, bs, 0) && bid in bs && bid != 0 && b.members == bs[bid].members
    requires Stage(bs[bid].state, from, b.state, to)
    ensures Placed(Advance(rs, b.members, from, to), bs[bid := b], 0)
  {
    hide Homes, Housing, Advance, Stage;
    StageHomes(rs, bs, bid, b, from, to);
    StageHousing(rs, bs, bid, b, from, to);
    assert NoDup(bs[bid].members);
    DistinctBatch(bs, bid, b);
  }

  lemma AdvanceQueued(rs: Requests, ix: Index, members: seq<Id>, from: RequestState, to: RequestState)
    requires Queued(rs, ix)
    requires InBatch(from) && InBatch(to) && !to.SealedMember?
    ensures Queued(Advance(rs, members, from, to), ix)
  {
    var rs' := Advance(rs, members, from, to);
    forall r | r in rs ensures rs'[r] == rs[r] || (OffQueue(rs[r]) && OffQueue(rs'[r])) {
      assert Waits(ix, r, rs[r]);
    }
    QueuedFrame(rs, rs', ix);
  }

  lemma SealCore(s: State, bid: Id)
    requires Numbered(s) && CoreInv(s)
    ensures CoreInv(Seal(s, bid).0)
  {
    hide Numbered, Placed, Queued, NoDup, Advance;
    var (s', ok) := Seal(s, bid);
    if ok {
      NoBatchZero(s);
      StagePlaced(s.requests, s.batches, bid, s'.batches[bid], RequestState.Reserved, RequestState.Batched);
      AdvanceQueued(s.requests, s.index, s.batches[bid].members, RequestState.Reserved, RequestState.Batched);
      NoDupAppend(s.sealedOrder, bid);
    }
  }

  lemma HandCore(s: State, bid: Id, worker: Id, boot: Id)
    requires Numbered(s) && CoreInv(s) && bid in s.batches && s.batches[bid].state.Sealed?
    ensures CoreInv(Hand(s, bid, worker, boot))
  {
    hide Numbered, Placed, Queued, FormingExact, Ordered, Advance;
    var s' := Hand(s, bid, worker, boot);
    NoBatchZero(s);
    StagePlaced(s.requests, s.batches, bid, s'.batches[bid], RequestState.Batched, RequestState.Dispatched);
    AdvanceQueued(s.requests, s.index, s.batches[bid].members, RequestState.Batched, RequestState.Dispatched);
    FormingReshape(s.batches, s.forming, bid, s'.batches[bid]);
    OrderedReshape(s.batches, s.sealedOrder, bid, s'.batches[bid]);
  }

  lemma StartCore(s: State, bid: Id)
    requires Numbered(s) && CoreInv(s) && bid in s.batches && s.batches[bid].state.Dispatched?
    ensures CoreInv(Start(s, bid))
  {
    hide Numbered, Placed, Queued, FormingExact, Ordered, Advance;
    var s' := Start(s, bid);
    NoBatchZero(s);
    StagePlaced(s.requests, s.batches, bid, s'.batches[bid], RequestState.Dispatched, RequestState.Running);
    AdvanceQueued(s.requests, s.index, s.batches[bid].members, RequestState.Dispatched, RequestState.Running);
    FormingReshape(s.batches, s.forming, bid, s'.batches[bid]);
    OrderedReshape(s.batches, s.sealedOrder, bid, s'.batches[bid]);
  }

  // ---- merging ----

  lemma MergeHomes(rs: Requests, bs: Batches, aid: Id, bid: Id, a': Batch, b': Batch)
    requires Homes(rs, bs, 0) && aid in bs && bid in bs && aid != bid && aid != 0 && bid != 0
    requires Active(bs[aid].state) && bs[bid].state == bs[aid].state
    requires a'.members == bs[aid].members + bs[bid].members && a'.state == bs[aid].state && b'.state.Superseded?
    ensures Homes(Rehome(rs, bs[bid].members, aid), bs[aid := a'][bid := b'], 0)
  {
    hide MemberState;
    var rs', bs' := Rehome(rs, bs[bid].members, aid), bs[aid := a'][bid := b'];
    assert Home(rs, aid, bs[aid]) && Home(rs, bid, bs[bid]);
    forall z | z in bs' && z != 0 ensures Home(rs', z, bs'[z]) {
      if z != aid && z != bid { assert Home(rs, z, bs[z]); }
    }
  }

  lemma MergeHousing(rs: Requests, bs: Batches, aid: Id, bid: Id, a': Batch, b': Batch)
    requires Homes(rs, bs, 0) && Housing(rs, bs)
    requires aid in bs && bid in bs && aid != bid && aid != 0 && bid != 0
    requires Active(bs[aid].state) && bs[bid].state == bs[aid].state
    requires a'.members == bs[aid].members + bs[bid].members && a'.state == bs[aid].state
    ensures Housing(Rehome(rs, bs[bid].members, aid), bs[aid := a'][bid := b'])
  {
    hide MemberState, StateMatch;
    var rs', bs' := Rehome(rs, bs[bid].members, aid), bs[aid := a'][bid := b'];
    assert Home(rs, bid, bs[bid]);
    forall r | r in rs' ensures Housed(bs', r, rs'[r]) { assert Housed(bs, r, rs[r]); }
  }

  lemma MergePlaced(rs: Requests, bs: Batches, aid: Id, bid: Id, a': Batch, b': Batch)
    requires Placed(rs, bs, 0) && aid in bs && bid in bs && aid != bid && aid != 0 && bid != 0
    requires Active(bs[aid].state) && bs[bid].state == bs[aid].state
    requires a'.members == bs[aid].members + bs[bid].members && a'.state == bs[aid].state
    requires b'.members == bs[bid].members && b'.state.Superseded?
    ensures Placed(Rehome(rs, bs[bid].members, aid), bs[aid := a'][bid := b'], 0)
  {
    hide Housing, Rehome, MemberState;
    MergeHomes(rs, bs, aid, bid, a', b');
    MergeHousing(rs, bs, aid, bid, a', b');
    assert Home(rs, aid, bs[aid]) && Home(rs, bid, bs[bid]);
    assert NoDup(bs[aid].members) && NoDup(bs[bid].members);
    NoDupConcat(bs[aid].members, bs[bid].members);
    DistinctBatch(bs, aid, a');
    DistinctBatch(bs[aid := a'], bid, b');
  }

  lemma RehomeQueued(rs: Requests, ix: Index, bid: Id, b: Batch, to: Id)
    requires Queued(rs, ix) && Home(rs, bid, b) && Active(b.state) && bid != 0
    ensures Queued(Rehome(rs, b.members, to), ix)
  {
    var rs' := Rehome(rs, b.members, to);
    forall r | r in rs ensures rs'[r] == rs[r] || (OffQueue(rs[r]) && OffQueue(rs'[r])) {
      assert Waits(ix, r, rs[r]);
    }
    QueuedFrame(rs, rs', ix);
  }

  lemma HomeOf(s: State, bid: Id)
    requires Placed(s.requests, s.batches, 0) && bid in s.batches && bid != 0
    ensures Home(s.requests, bid, s.batches[bid])
  {
  }

  /** Only sealed batches can meet the merge test: there is one forming batch per key. */
  lemma MergedAreSealed(p: BatchPolicy, s: State, aid: Id, bid: Id)
    requires FormingExact(s.batches, s.forming) && Merge(p, s, aid, bid).1.Ok?
    ensures s.batches[aid].state.Sealed? && s.batches[bid].state.Sealed?
  {
  }

  lemma MergeRest(bs: Batches, fm: map<Key, Id>, order: seq<Id>, aid: Id, bid: Id, a': Batch, b': Batch)
    requires FormingExact(bs, fm) && Ordered(bs, order) && aid in bs && bid in bs && aid != bid
    requires bs[aid].state.Sealed? && bs[bid].state.Sealed? && a'.state.Sealed? && a'.key == bs[aid].key && b'.state.Superseded?
    ensures FormingExact(bs[aid := a'][bid := b'], fm)
    ensures Ordered(bs[aid := a'][bid := b'], Without(order, bid))
    ensures bs[bid].key in fm ==> fm[bs[bid].key] != bid
  {
    WithoutNoDup(order, bid);
  }

  lemma MergeCore(p: BatchPolicy, s: State, aid: Id, bid: Id)
    requires Numbered(s) && CoreInv(s)
    ensures CoreInv(Merge(p, s, aid, bid).0)
  {
    hide Numbered, Placed, Queued, FormingExact, Ordered, Rehome, Home;
    var (s', code) := Merge(p, s, aid, bid);
    if code.Ok? {
      NoBatchZero(s);
      MergedAreSealed(p, s, aid, bid);
      HomeOf(s, bid);
      var a', b' := s'.batches[aid], s'.batches[bid];
      MergePlaced(s.requests, s.batches, aid, bid, a', b');
      RehomeQueued(s.requests, s.index, bid, s.batches[bid], aid);
      MergeRest(s.batches, s.forming, s.sealedOrder, aid, bid, a', b');
    }
  }

  // ---- cancellation and expiry ----

  /** A waiting request ends; when it was in the index it leaves the index. */
  lemma EndWaitingCore(s: State, rid: Id, st: RequestState, outcome: U8, now: int)
    requires Numbered(s) && CoreInv(s) && rid in s.requests && WaitingState(s.requests[rid].state) && Terminal(st)
    ensures var ix := if s.requests[rid].inWaiting then IndexRemove(s.index, s.requests[rid].key, rid) else s.index;
            CoreInv(EndWaiting(s.(index := ix), rid, st, outcome, now))
  {
    hide Numbered, Placed, Queued, FormingExact, Ordered, IndexRemove;
    var q := s.requests[rid].(state := st, inWaiting := false);
    NoBatchZero(s);
    WaitsOf(s, rid);
    PlacedRequest(s.requests, s.batches, 0, rid, q);
    if s.requests[rid].inWaiting { QueuedRemove(s.requests, s.index, rid, q); }
    else { QueuedRequest(s.requests, s.index, rid, q); }
  }

  lemma CancelPlacedCore(s: State, rid: Id, now: int)
    requires Numbered(s) && CoreInv(s) && rid in s.requests && InBatch(s.requests[rid].state)
    requires s.requests[rid].batch in s.batches && !s.batches[s.requests[rid].batch].state.Forming?
    ensures CoreInv(CancelPlaced(s, rid, now))
  {
    hide Numbered, Placed, Queued, FormingExact, Ordered;
    var s' := CancelPlaced(s, rid, now);
    var bid := s.requests[rid].batch;
    WaitsOf(s, rid);
    PlacedRequest(s.requests, s.batches, 0, rid, s'.requests[rid]);
    QueuedRequest(s.requests, s.index, rid, s'.requests[rid]);
    ReshapeCore(s.(requests := s'.requests), 0, bid, s'.batches[bid]);
  }

  lemma CancelFormingPlaced(rs: Requests, bs: Batches, bid: Id, r: Id, q: Request, b': Batch)
    requires Placed(rs, bs, 0) && 0 !in bs && bid in bs && bs[bid].state.Forming?
    requires b'.state.Forming? && b'.members == Without(bs[bid].members, r)
    requires r in rs && InBatch(rs[r].state) && rs[r].batch == bid && q.batch == 0 && Terminal(q.state)
    ensures Placed(rs[r := q], bs[bid := b'], 0)
  {
    hide NoDup, Homes, Housing, Distinct, StateMatch;
    var rs', bs' := rs[r := q], bs[bid := b'];
    CancelFormingHomes(rs, bs, bid, r, q, b');
    HousingRequest(rs, bs, r, q);
    forall z | z in rs' && InBatch(rs'[z].state) && rs'[z].batch == bid
      ensures z in b'.members && StateMatch(rs'[z].state, b'.state)
    {
      HousedIn(rs', bs, z);
    }
    HousingBatch(rs', bs, bid, b');
    CancelFormingDistinct(bs, bid, r);
    DistinctBatch(bs, bid, b');
  }

  lemma CancelFormingDistinct(bs: Batches, bid: Id, r: Id)
    requires Distinct(bs) && bid in bs
    ensures NoDup(Without(bs[bid].members, r))
  {
    WithoutNoDup(bs[bid].members, r);
  }

  lemma CancelFormingHomes(rs: Requests, bs: Batches, bid: Id, r: Id, q: Request, b': Batch)
    requires Homes(rs, bs, 0) && bid in bs && bid != 0 && bs[bid].state.Forming?
    requires b'.state.Forming? && b'.members == Without(bs[bid].members, r)
    requires r in rs && rs[r].batch == bid
    ensures Homes(rs[r := q], bs[bid := b'], 0)
  {
    hide MemberState;
    var bs' := bs[bid := b'];
    assert Home(rs, bid, bs[bid]);
    forall z | z in bs' && z != 0 ensures Home(rs[r := q], z, bs'[z]) {
      if z != bid { assert Home(rs, z, bs[z]); }
    }
  }

  lemma CancelFormingCore(p: BatchPolicy, s: State, rid: Id, now: int)
    requires Numbered(s) && CoreInv(s) && rid in s.requests && InBatch(s.requests[rid].state)
    requires s.requests[rid].batch in s.batches && s.batches[s.requests[rid].batch].state.Forming?
    ensures CoreInv(CancelForming(p, s, rid, now))
  {
    hide Numbered, Placed, Queued, FormingExact, Ordered;
    var s' := CancelForming(p, s, rid, now);
    var bid := s.requests[rid].batch;
    NoBatchZero(s);
    WaitsOf(s, rid);
    CancelFormingPlaced(s.requests, s.batches, bid, rid, s'.requests[rid], s'.batches[bid]);
    QueuedRequest(s.requests, s.index, rid, s'.requests[rid]);
    FormingReshape(s.batches, s.forming, bid, s'.batches[bid]);
    OrderedReshape(s.batches, s.sealedOrder, bid, s'.batches[bid]);
  }

  /** A live request outside every batch is waiting. */
  lemma LiveStates(s: State, rid: Id)
    requires CoreInv(s) && rid in s.requests && !Terminal(s.requests[rid].state) && !InBatch(s.requests[rid].state)
    ensures WaitingState(s.requests[rid].state)
  {
    WaitsOf(s, rid);
  }
}
