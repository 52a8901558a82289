/** What holds on every run without recovery, splits and retries included:
    numbering, members of one key, exact accumulators, and budgets as long as
    nothing that slips through the size test has been retried. */
module Wide {
  import opened Types
  import opened Policy
  import opened Scheduler
  import opened Totals
  import Identity

  predicate Numbered(s: State) {
    && (forall r :: r in s.requests ==> 0 < r < s.nextRequest)
    && (forall a :: a in s.attempts ==> 0 < a < s.nextAttempt)
    && (forall b :: b in s.batches ==> 0 < b < s.nextBatch)
    && 0 < s.nextRequest && 0 < s.nextAttempt && 0 < s.nextBatch
  }

  predicate Keyed(rs: Requests) {
    forall r :: r in rs ==> rs[r].key == Identity.KeyOf(rs[r].meta.descriptor) && rs[r].attempts != []
  }

  /** No request that slips past the size test has been given a second attempt. */
  predicate Screened(p: BatchPolicy, rs: Requests) {
    forall r :: r in rs && Slips(p.budget, rs[r].meta) ==> |rs[r].attempts| <= 1
  }

  /** A request under this key. The size test kept out what slips, unless it has
      been retried since. */
  predicate Candidate(p: BatchPolicy, rs: Requests, k: Key, r: Id) {
    r in rs && rs[r].key == k && (Slips(p.budget, rs[r].meta) ==> 2 <= |rs[r].attempts|)
  }

  /** The descriptor of a batch with members, or that has had some, has its key. */
  predicate Labelled(b: Batch) { b.members != [] || b.descriptor.model != [] ==> Identity.KeyOf(b.descriptor) == b.key }

  /** Every member is a candidate of the batch's key, which its descriptor has too, the
      accumulator is the true usage wrapped to its fields, and under screening the true
      usage respects every limit below 2^63 (2^31 for the count). */
  predicate Sound(p: BatchPolicy, rs: Requests, b: Batch) {
    && (forall m :: m in b.members ==> Candidate(p, rs, b.key, m)) && Labelled(b)
    && b.accum == Wrap(Usage(rs, b.members))
    && (Screened(p, rs) ==> HeldAll(p.budget, Usage(rs, b.members)))
  }

  predicate AllSound(p: BatchPolicy, rs: Requests, bs: Batches) {
    forall b :: b in bs ==> Sound(p, rs, bs[b])
  }

  predicate IndexKnown(p: BatchPolicy, rs: Requests, ix: Index) {
    forall k, r :: k in ix && r in ix[k] ==> Candidate(p, rs, k, r)
  }

  predicate FormingKnown(bs: Batches, fm: map<Key, Id>) {
    forall k :: k in fm ==> fm[k] in bs && bs[fm[k]].key == k
  }

  predicate WideInv(p: BatchPolicy, s: State) {
    && Numbered(s) && Keyed(s.requests)
    && AllSound(p, s.requests, s.batches)
    && IndexKnown(p, s.requests, s.index)
    && FormingKnown(s.batches, s.forming)
  }

  // ---- framing ----

  lemma KeyedFrame(rs: Requests, rs': Requests)
    requires Keyed(rs) && SameMetas(rs, rs') && rs'.Keys == rs.Keys
    ensures Keyed(rs')
  {
    hide Identity.KeyOf;
  }

  lemma SoundFrame(p: BatchPolicy, rs: Requests, rs': Requests, b: Batch)
    requires Sound(p, rs, b) && SameMetas(rs, rs')
    ensures Sound(p, rs', b)
  {
    hide Wrap, HeldAll, Slips, Labelled;
    ScreenedBack(p, rs, rs');
    assert AllIn(rs, b.members) by {
      forall m | m in b.members ensures m in rs { assert Candidate(p, rs, b.key, m); }
    }
    UsageFrame(rs, rs', b.members);
    forall m | m in b.members ensures Candidate(p, rs', b.key, m) { assert Candidate(p, rs, b.key, m); }
  }

  lemma ScreenedBack(p: BatchPolicy, rs: Requests, rs': Requests)
    requires SameMetas(rs, rs')
    ensures Screened(p, rs') ==> Screened(p, rs)
  {
    hide Slips;
    if Screened(p, rs') {
      forall r | r in rs && Slips(p.budget, rs[r].meta) ensures |rs[r].attempts| <= 1 { assert r in rs'; }
    }
  }

  lemma AllSoundFrame(p: BatchPolicy, rs: Requests, rs': Requests, bs: Batches)
    requires AllSound(p, rs, bs) && SameMetas(rs, rs')
    ensures AllSound(p, rs', bs)
  {
    hide Sound, SameMetas;
    forall b | b in bs ensures Sound(p, rs', bs[b]) { SoundFrame(p, rs, rs', bs[b]); }
  }

  lemma IndexFrame(p: BatchPolicy, rs: Requests, rs': Requests, ix: Index)
    requires IndexKnown(p, rs, ix) && SameMetas(rs, rs')
    ensures IndexKnown(p, rs', ix)
  {
    forall k, r | k in ix && r in ix[k] ensures Candidate(p, rs', k, r) {
      assert Candidate(p, rs, k, r);
    }
  }

  /** Request records may change as long as sizes and keys stay. */
  lemma RequestsFrame(p: BatchPolicy, rs: Requests, rs': Requests, bs: Batches, ix: Index)
    requires SameMetas(rs, rs') && rs'.Keys == rs.Keys
    requires Keyed(rs) && AllSound(p, rs, bs) && IndexKnown(p, rs, ix)
    ensures Keyed(rs') && AllSound(p, rs', bs) && IndexKnown(p, rs', ix)
  {
    hide Keyed, AllSound, IndexKnown, SameMetas;
    KeyedFrame(rs, rs');
    AllSoundFrame(p, rs, rs', bs);
    IndexFrame(p, rs, rs', ix);
  }

  lemma SoundUpdate(p: BatchPolicy, rs: Requests, bs: Batches, fm: map<Key, Id>, x: Id, b: Batch)
    requires AllSound(p, rs, bs) && FormingKnown(bs, fm) && Sound(p, rs, b)
    requires x in bs ==> bs[x].key == b.key
    ensures AllSound(p, rs, bs[x := b]) && FormingKnown(bs[x := b], fm)
  {
    hide Sound;
  }

  lemma FormingPoint(bs: Batches, fm: map<Key, Id>, k: Key, bid: Id)
    requires FormingKnown(bs, fm) && bid in bs && bs[bid].key == k
    ensures FormingKnown(bs, fm[k := bid])
  {
  }

  lemma SameMetasUpdate(rs: Requests, r: Id, q: Request)
    requires r in rs ==> q.meta == rs[r].meta && q.key == rs[r].key && |rs[r].attempts| <= |q.attempts|
    ensures SameMetas(rs, rs[r := q])
  {
  }

  predicate SameLists(bs: Batches, bs': Batches) {
    && bs'.Keys == bs.Keys
    && forall b :: b in bs ==>
         && bs'[b].members == bs[b].members && bs'[b].accum == bs[b].accum && bs'[b].key == bs[b].key
         && bs'[b].descriptor == bs[b].descriptor
  }

  lemma AllSoundSameLists(p: BatchPolicy, rs: Requests, bs: Batches, bs': Batches, fm: map<Key, Id>)
    requires AllSound(p, rs, bs) && SameLists(bs, bs') && FormingKnown(bs, fm)
    ensures AllSound(p, rs, bs') && FormingKnown(bs', fm)
  {
    hide Usage, Wrap, HeldAll, Screened, Identity.KeyOf;
    forall b | b in bs' ensures Sound(p, rs, bs'[b]) { assert Sound(p, rs, bs[b]); }
  }

  predicate SubIndex(ix': Index, ix: Index) {
    forall k, r :: k in ix' && r in ix'[k] ==> k in ix && r in ix[k]
  }

  lemma SubIndexKnown(p: BatchPolicy, rs: Requests, ix: Index, ix': Index)
    requires IndexKnown(p, rs, ix) && SubIndex(ix', ix)
    ensures IndexKnown(p, rs, ix')
  {
    hide Candidate;
    forall k, r | k in ix' && r in ix'[k] ensures Candidate(p, rs, k, r) { assert k in ix && r in ix[k]; }
  }

  lemma IndexRemoveSub(ix: Index, k: Key, r: Id)
    ensures SubIndex(IndexRemove(ix, k, r), ix)
  {
  }

  /** Steps that move requests and batches between states, without touching any
      member list, size or key. */
  lemma WideFrame(p: BatchPolicy, s: State, s': State)
    requires WideInv(p, s)
    requires SameMetas(s.requests, s'.requests) && s'.requests.Keys == s.requests.Keys
    requires SameLists(s.batches, s'.batches)
    requires SubIndex(s'.index, s.index)
    requires forall k :: k in s'.forming ==> k in s.forming && s'.forming[k] == s.forming[k]
    requires s'.attempts.Keys == s.attempts.Keys
    requires s'.nextRequest == s.nextRequest && s'.nextAttempt == s.nextAttempt && s'.nextBatch == s.nextBatch
    ensures WideInv(p, s')
  {
    hide Keyed, AllSound, IndexKnown, SameMetas, SubIndex;
    AllSoundSameLists(p, s.requests, s.batches, s'.batches, s.forming);
    SubIndexKnown(p, s.requests, s.index, s'.index);
    RequestsFrame(p, s.requests, s'.requests, s'.batches, s'.index);
  }

  /** Counters and fairness accounts are not involved. */
  lemma WideStats(p: BatchPolicy, s: State, t: Stats, served: map<U64, U64>, outstanding: map<U64, U64>)
    requires WideInv(p, s)
    ensures WideInv(p, s.(stats := t, served := served, outstanding := outstanding))
  {
    hide Keyed, AllSound, IndexKnown, FormingKnown;
  }

  // ---- steps that add requests or attempts ----

  lemma IndexAddKnown(p: BatchPolicy, rs: Requests, ix: Index, k: Key, r: Id)
    requires IndexKnown(p, rs, ix) && Candidate(p, rs, k, r)
    ensures IndexKnown(p, rs, IndexAdd(ix, k, r))
  {
    hide Candidate;
    var ix' := IndexAdd(ix, k, r);
    forall k', x | k' in ix' && x in ix'[k'] ensures Candidate(p, rs, k', x) {
      if k' != k || x != r { assert k' in ix && x in ix[k']; }
    }
  }

  lemma KeyedAdd(rs: Requests, r: Id, q: Request)
    requires Keyed(rs) && q.key == Identity.KeyOf(q.meta.descriptor) && q.attempts != []
    ensures Keyed(rs[r := q])
  {
    hide Identity.KeyOf;
  }

  lemma EnrollWide(p: BatchPolicy, s: State, meta: Metadata, key: Key, now: int, st: RequestState, outcome: U8, waiting: bool)
    requires WideInv(p, s) && (waiting ==> !Oversized(p.budget, meta)) && key == Identity.KeyOf(meta.descriptor)
    ensures WideInv(p, Enroll(s, meta, key, now, st, outcome, waiting))
  {
    hide Keyed, AllSound, IndexKnown, FormingKnown, SameMetas, Identity.KeyOf;
    var rid := s.nextRequest;
    var rs := s.requests[rid := Request(meta, st, s.nextAttempt, [s.nextAttempt], 0, now, key, waiting)];
    KeyedAdd(s.requests, rid, rs[rid]);
    SameMetasUpdate(s.requests, rid, rs[rid]);
    AllSoundFrame(p, s.requests, rs, s.batches);
    IndexFrame(p, s.requests, rs, s.index);
    if waiting {
      IndexAddKnown(p, rs, s.index, key, rid);
    }
  }

  lemma SubmitWide(p: BatchPolicy, s: State, meta: Metadata, now: int)
    requires WideInv(p, s)
    ensures WideInv(p, Submit(p, s, meta, now))
  {
    hide Enroll, WideInv, Identity.KeyOf;
    var s' := Submit(p, s, meta, now);
    var a, key := Admit(p, s, meta, now), Identity.KeyOf(meta.descriptor);
    if a.RejectedIdentity? {
      WideStats(p, s, s'.stats, s.served, s.outstanding);
    } else {
      var st, outcome := AdmittedState(a), AdmittedOutcome(a);
      var e := Enroll(s, meta, key, now, st, outcome, a.Admitted?);
      EnrollWide(p, s, meta, key, now, st, outcome, a.Admitted?);
      WideStats(p, e, s'.stats, e.served, s'.outstanding);
    }
  }

  lemma RequeueWide(p: BatchPolicy, s: State, rid: Id, number: nat)
    requires WideInv(p, s) && rid in s.requests
    ensures WideInv(p, Requeue(s, rid, number))
  {
    hide AllSound, IndexKnown, FormingKnown, SameMetas, Slips, Identity.KeyOf;
    var rs := Requeue(s, rid, number).requests;
    SameMetasUpdate(s.requests, rid, rs[rid]);
    RequestsFrame(p, s.requests, rs, s.batches, s.index);
    IndexAddKnown(p, rs, s.index, s.requests[rid].key, rid);
  }

  // ---- steps that change member lists ----

  lemma UsageAppend(rs: Requests, members: seq<Id>, r: Id)
    requires r in rs
    ensures Usage(rs, members + [r]) == Sum(Usage(rs, members), Size(rs[r].meta))
  {
    var ms := members + [r];
    assert ms[..|ms| - 1] == members;
  }

  /** A batch that takes in one candidate which passed the budget test. */
  lemma SoundGrow(p: BatchPolicy, rs: Requests, b: Batch, r: Id, b': Batch)
    requires Sound(p, rs, b) && Candidate(p, rs, b.key, r) && AllowsAdd(p.budget, b.accum, Load(rs[r].meta))
    requires b'.members == b.members + [r] && b'.key == b.key
    requires b'.accum == Plus(b.accum, Load(rs[r].meta)).(count := |b'.members| % 0x1_0000_0000)
    requires Labelled(b')
    ensures Sound(p, rs, b')
  {
    hide HeldAll, Slips, AllowsAdd, Usage, SameMetas, Labelled;
    var u, size := Usage(rs, b.members), Size(rs[r].meta);
    UsageAppend(rs, b.members, r);
    WrapSize(rs[r].meta);
    assert AllIn(rs, b'.members) by {
      forall x | x in b.members ensures x in rs { assert Candidate(p, rs, b.key, x); }
    }
    UsageCount(rs, b'.members);
    PlusWraps(u, size);
    if Screened(p, rs) {
      UsageCount(rs, b.members);
      EmptyUsage(rs, b.members);
      HeldGrow(p.budget, u, rs[r].meta);
    }
  }

  /** A batch takes the descriptor of its first member. */
  lemma GrownLabelled(rs: Requests, b: Batch, r: Id)
    requires Keyed(rs) && Labelled(b) && r in rs && rs[r].key == b.key
    ensures Labelled(Grown(b, r, rs[r].meta))
  {
    hide Identity.KeyOf;
  }

  /** A batch without one takes it from its first member when it is recomputed. */
  lemma RecomputedLabelled(p: BatchPolicy, rs: Requests, b: Batch, b': Batch)
    requires Keyed(rs) && Labelled(b) && b'.key == b.key && b'.descriptor == DescriptorFrom(rs, b.descriptor, b'.members)
    requires forall m :: m in b'.members ==> Candidate(p, rs, b'.key, m)
    ensures Labelled(b')
  {
    hide Identity.KeyOf, Slips;
    if b'.members != [] { assert Candidate(p, rs, b'.key, b'.members[0]); }
  }

  lemma EmptyUsage(rs: Requests, members: seq<Id>)
    ensures members == [] ==> Usage(rs, members) == NOTHING
  {
  }

  lemma SoundLabelled(p: BatchPolicy, rs: Requests, b: Batch)
    requires Sound(p, rs, b)
    ensures Labelled(b) && forall m :: m in b.members ==> Candidate(p, rs, b.key, m)
  {
    hide Labelled, Candidate, Usage, HeldAll;
  }

  lemma PlaceWide(p: BatchPolicy, s: State, bid: Id, key: Key, rid: Id)
    requires WideInv(p, s) && bid in s.batches && s.batches[bid].key == key
    requires Candidate(p, s.requests, key, rid)
    requires AllowsAdd(p.budget, s.batches[bid].accum, Load(s.requests[rid].meta))
    ensures WideInv(p, Place(s, bid, key, rid))
  {
    hide Keyed, IndexKnown, FormingKnown, SameMetas, Sound, SubIndex, Labelled;
    var s' := Place(s, bid, key, rid);
    SoundLabelled(p, s.requests, s.batches[bid]);
    GrownLabelled(s.requests, s.batches[bid], rid);
    SoundGrow(p, s.requests, s.batches[bid], rid, s'.batches[bid]);
    SoundUpdate(p, s.requests, s.batches, s.forming, bid, s'.batches[bid]);
    SameMetasUpdate(s.requests, rid, s'.requests[rid]);
    IndexRemoveSub(s.index, key, rid);
    SubIndexKnown(p, s.requests, s.index, s'.index);
    RequestsFrame(p, s.requests, s'.requests, s'.batches, s'.index);
  }

  /** A batch recomputed over a list that uses no more. */
  lemma SoundRecomputed(p: BatchPolicy, rs: Requests, b: Batch, b': Batch)
    requires forall m :: m in b'.members ==> Candidate(p, rs, b'.key, m)
    requires b'.accum == Tally(rs, b'.members)
    requires Screened(p, rs) ==> HeldAll(p.budget, Usage(rs, b.members))
    requires AtMost(Usage(rs, b'.members), Usage(rs, b.members)) && Labelled(b')
    ensures Sound(p, rs, b')
  {
    hide Labelled, Screened, Usage, Tally, Wrap, HeldAll, AtMost, Candidate;
    if Screened(p, rs) { HeldMonotone(p.budget, Usage(rs, b'.members), Usage(rs, b.members)); }
    TallyIsUsage(rs, b'.members);
  }

  lemma CancelFormingWide(p: BatchPolicy, s: State, rid: Id, now: int)
    requires WideInv(p, s) && rid in s.requests && s.requests[rid].batch in s.batches
    ensures WideInv(p, CancelForming(p, s, rid, now))
  {
    hide Keyed, IndexKnown, FormingKnown, SameMetas, Usage, Wrap, Tally, AtMost, HeldAll, Screened, Candidate, Labelled;
    var s' := CancelForming(p, s, rid, now);
    var bid := s.requests[rid].batch;
    RecomputedLabelled(p, s.requests, s.batches[bid], s'.batches[bid]);
    UsageWithout(s.requests, s.batches[bid].members, rid);
    SoundRecomputed(p, s.requests, s.batches[bid], s'.batches[bid]);
    SoundUpdate(p, s.requests, s.batches, s.forming, bid, s'.batches[bid]);
    SameMetasUpdate(s.requests, rid, s'.requests[rid]);
    RequestsFrame(p, s.requests, s'.requests, s'.batches, s.index);
  }

  lemma OpenFormingWide(p: BatchPolicy, s: State, key: Key, now: int)
    requires WideInv(p, s)
    ensures WideInv(p, OpenForming(s, key, now))
  {
    hide Keyed, IndexKnown, AllSound, FormingKnown;
    var s' := OpenForming(s, key, now);
    SoundUpdate(p, s.requests, s.batches, s.forming, s.nextBatch, s'.batches[s.nextBatch]);
    FormingPoint(s'.batches, s.forming, key, s.nextBatch);
  }

  lemma RehomeSame(rs: Requests, members: seq<Id>, to: Id)
    ensures SameMetas(rs, Rehome(rs, members, to)) && Rehome(rs, members, to).Keys == rs.Keys
  {
  }

  /** Two batches of one key that passed the merge test. */
  lemma SoundJoin(p: BatchPolicy, rs: Requests, a: Batch, b: Batch, c: Batch)
    requires Sound(p, rs, a) && Sound(p, rs, b) && CanMerge(p, a, b)
    requires c.members == a.members + b.members && c.key == a.key && c.accum == Tally(rs, c.members)
    requires Keyed(rs) && c.descriptor == DescriptorFrom(rs, a.descriptor, c.members)
    ensures Sound(p, rs, c)
  {
    hide Keyed, DescriptorFrom, Labelled, Usage, Wrap, Tally, AtMost, Candidate, HeldAll, Screened, AllowsAdd;
    UsageConcat(rs, a.members, b.members);
    TallyIsUsage(rs, c.members);
    RecomputedLabelled(p, rs, a, c);
    if Screened(p, rs) { HeldJoin(p.budget, Usage(rs, a.members), Usage(rs, b.members)); }
  }

  lemma SoundRestate(p: BatchPolicy, rs: Requests, b: Batch, st: BatchState)
    requires Sound(p, rs, b)
    ensures Sound(p, rs, b.(state := st))
  {
    hide Identity.KeyOf;
  }

  lemma MergeWide(p: BatchPolicy, s: State, aid: Id, bid: Id)
    requires WideInv(p, s)
    ensures WideInv(p, Merge(p, s, aid, bid).0)
  {
    hide Keyed, IndexKnown, FormingKnown, SameMetas, Sound, Rehome, Tally;
    var (s', code) := Merge(p, s, aid, bid);
    if code.Ok? {
      var a, b, rs, a' := s.batches[aid], s.batches[bid], s'.requests, s'.batches[aid];
      RehomeSame(s.requests, b.members, aid);
      RequestsFrame(p, s.requests, rs, s.batches, s.index);
      SoundJoin(p, rs, a, b, a');
      SoundRestate(p, rs, b, BatchState.Superseded);
      SoundUpdate(p, rs, s.batches, s.forming, aid, a');
      SoundUpdate(p, rs, s.batches[aid := a'], s.forming, bid, s'.batches[bid]);
      FormingPoint(s'.batches, s.forming, b.key, aid);
    }
  }

  lemma SoundThree(p: BatchPolicy, rs: Requests, bs: Batches, fm: map<Key, Id>, x: Id, c: Batch, y: Id, d: Batch, z: Id, e: Batch)
    requires AllSound(p, rs, bs) && FormingKnown(bs, fm)
    requires Sound(p, rs, c) && Sound(p, rs, d) && Sound(p, rs, e)
    requires x !in bs && y in bs && bs[y].key == d.key && z !in bs && z != x
    ensures AllSound(p, rs, bs[x := c][y := d]) && FormingKnown(bs[x := c][y := d], fm)
    ensures AllSound(p, rs, bs[x := c][y := d][z := e]) && FormingKnown(bs[x := c][y := d][z := e], fm)
  {
    hide AllSound, Sound, FormingKnown;
    SoundUpdate(p, rs, bs, fm, x, c);
    SoundUpdate(p, rs, bs[x := c], fm, y, d);
    SoundUpdate(p, rs, bs[x := c][y := d], fm, z, e);
  }

  /** Either half of a sound batch, recomputed. */
  lemma SoundHalf(p: BatchPolicy, rs: Requests, b: Batch, c: Batch)
    requires Sound(p, rs, b) && c.key == b.key && c.accum == Tally(rs, c.members)
    requires var h := |b.members| / 2; c.members == b.members[..h] || c.members == b.members[h..]
    requires Keyed(rs) && c.descriptor == DescriptorFrom(rs, b.descriptor, c.members)
    ensures Sound(p, rs, c)
  {
    hide Keyed, DescriptorFrom, Labelled, Usage, Wrap, Tally, HeldAll, Screened;
    var ms, h := b.members, |b.members| / 2;
    assert ms == ms[..h] + ms[h..];
    UsageConcat(rs, ms[..h], ms[h..]);
    forall m | m in c.members ensures Candidate(p, rs, c.key, m) { assert m in ms; }
    RecomputedLabelled(p, rs, b, c);
    SoundRecomputed(p, rs, b, c);
  }

  lemma SplitRequestsSame(s: State, bid: Id)
    requires bid in s.batches
    ensures var rs' := SplitRequests(s, bid); SameMetas(s.requests, rs') && rs'.Keys == s.requests.Keys
  {
    var ms := s.batches[bid].members;
    RehomeSame(s.requests, ms[|ms| / 2..], s.nextBatch);
    RehomeSame(Rehome(s.requests, ms[|ms| / 2..], s.nextBatch), ms[..|ms| / 2], bid);
  }

  lemma SoundIn(p: BatchPolicy, rs: Requests, bs: Batches, bid: Id)
    requires AllSound(p, rs, bs) && bid in bs
    ensures Sound(p, rs, bs[bid])
  {
  }

  lemma OffspringLabel(rs: Requests, b: Batch, members: seq<Id>, parents: seq<Id>, children: seq<Id>)
    ensures Offspring(rs, b, members, parents, children).descriptor == DescriptorFrom(rs, b.descriptor, members)
  {
    hide Tally;
  }

  lemma RestLabel(rs: Requests, b: Batch, children: seq<Id>, st: BatchState)
    ensures SplitRest(rs, b, children, st).descriptor == DescriptorFrom(rs, b.descriptor, b.members[..|b.members| / 2])
  {
    hide Tally;
  }

  lemma SplitSealedWide(p: BatchPolicy, s: State, bid: Id)
    requires WideInv(p, s) && bid in s.batches
    ensures WideInv(p, SplitSealed(s, bid))
  {
    hide Keyed, IndexKnown, FormingKnown, SameMetas, Sound, AllSound, SplitRequests, Offspring, SplitRest, Tally;
    var b, rs := s.batches[bid], SplitRequests(s, bid);
    var child: Id, firstId: Id := s.nextBatch, s.nextBatch + 1;
    SplitRequestsSame(s, bid);
    RequestsFrame(p, s.requests, rs, s.batches, s.index);
    SoundIn(p, rs, s.batches, bid);
    var rest := SplitRest(rs, b, [child, firstId], BatchState.Superseded);
    var c := Offspring(rs, b, b.members[|b.members| / 2..], [bid, firstId], []);
    var f := Offspring(rs, b.(descriptor := rest.descriptor), b.members[..|b.members| / 2], [bid], [child]);
    OffspringLabel(rs, b, b.members[|b.members| / 2..], [bid, firstId], []);
    OffspringLabel(rs, b.(descriptor := rest.descriptor), b.members[..|b.members| / 2], [bid], [child]);
    RestLabel(rs, b, [child, firstId], BatchState.Superseded);
    SoundHalf(p, rs, b, c);
    SoundHalf(p, rs, b, rest);
    SoundHalf(p, rs, b, f);
    SoundThree(p, rs, s.batches, s.forming, child, c, bid, rest, firstId, f);
  }

  lemma SplitOpenWide(p: BatchPolicy, s: State, bid: Id)
    requires WideInv(p, s) && bid in s.batches
    ensures WideInv(p, SplitOpen(s, bid))
  {
    hide Keyed, IndexKnown, FormingKnown, SameMetas, Sound, AllSound, SplitRequests, Offspring, SplitRest, Tally;
    var b, rs := s.batches[bid], SplitRequests(s, bid);
    var child: Id := s.nextBatch;
    SplitRequestsSame(s, bid);
    RequestsFrame(p, s.requests, rs, s.batches, s.index);
    SoundIn(p, rs, s.batches, bid);
    var rest := SplitRest(rs, b, [child], b.state);
    var c := Offspring(rs, b, b.members[|b.members| / 2..], [bid], []);
    OffspringLabel(rs, b, b.members[|b.members| / 2..], [bid], []);
    RestLabel(rs, b, [child], b.state);
    SoundHalf(p, rs, b, c);
    SoundHalf(p, rs, b, rest);
    SoundThree(p, rs, s.batches, s.forming, child, c, bid, rest, child + 1, rest);
    FormingPoint(s.batches[child := c][bid := rest], s.forming, b.key, bid);
  }

  lemma SplitWide(p: BatchPolicy, s: State, bid: Id)
    requires WideInv(p, s)
    ensures WideInv(p, Split(s, bid).0)
  {
    hide WideInv, SplitSealed, SplitOpen;
    var (s', code) := Split(s, bid);
    if code.Ok? {
      SplitSealedWide(p, s, bid);
      SplitOpenWide(p, s, bid);
      var e := if s.batches[bid].state.Sealed? then SplitSealed(s, bid) else SplitOpen(s, bid);
      WideStats(p, e, s'.stats, e.served, e.outstanding);
    }
  }
}
