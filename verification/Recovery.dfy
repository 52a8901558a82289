/** Rebuilding the fabric from a parsed state file. */
module Recovery {
  import opened Types
  import opened Policy
  import opened Lists
  import opened Scheduler
  import opened Engine
  import opened Placement
  import Persistence
  import StateFile
  import Identity

  function RequestStateOf(b: U8): RequestState {
    match b
    case 0 => RequestState.Created
    case 1 => RequestState.Eligible
    case 2 => RequestState.Waiting
    case 3 => RequestState.Reserved
    case 4 => RequestState.Batched
    case 5 => RequestState.SealedMember
    case 6 => RequestState.Dispatched
    case 7 => RequestState.Running
    case 8 => RequestState.Completed
    case 9 => RequestState.Cancelled
    case 10 => RequestState.Expired
    case 11 => RequestState.Rejected
    case _ => RequestState.Failed
  }

  function BatchStateOf(b: U8): BatchState {
    match b
    case 0 => BatchState.Forming
    case 1 => BatchState.Sealed
    case 2 => BatchState.Dispatched
    case 3 => BatchState.Running
    case 4 => BatchState.PartiallyCompleted
    case 5 => BatchState.Completed
    case 6 => BatchState.Cancelled
    case 7 => BatchState.Failed
    case _ => BatchState.Superseded
  }

  /** The key is recomputed, and every eligible or waiting request is queued again. */
  function RequestOf(r: Persistence.SavedRequest): Request {
    var st := RequestStateOf(r.state);
    Request(r.meta, st, r.attempt, r.attempts, r.batch, r.submitted, Identity.KeyOf(r.meta.descriptor), WaitingState(st))
  }

  function AttemptOf(a: Persistence.SavedAttempt): Attempt {
    Attempt(a.number, RequestStateOf(a.state), a.outcome, a.result, 0, a.completed)
  }

  /** The descriptor is taken from the first member; it is not in the file. */
  function BatchOf(rs: Requests, b: Persistence.SavedBatch): Batch {
    var d := if b.members != [] && b.members[0] in rs then rs[b.members[0]].meta.descriptor else NO_DESCRIPTOR;
    Batch(b.generation, b.epoch, BatchStateOf(b.state), b.key, d.phase, d, b.members, b.used, b.stamps.formed,
          b.stamps.worker, b.stamps.boot, b.parents, b.children, NO_DEADLINE, map[])
  }

  function LoadRequest(s: State, r: Persistence.SavedRequest): State {
    var q := RequestOf(r);
    s.(requests := s.requests[r.id := q], index := if q.inWaiting then IndexAdd(s.index, q.key, r.id) else s.index)
  }

  function LoadRequests(s: State, rs: seq<Persistence.SavedRequest>): State {
    if rs == [] then s else LoadRequest(LoadRequests(s, rs[..|rs| - 1]), rs[|rs| - 1])
  }

  function LoadAttempts(at: Attempts, xs: seq<Persistence.SavedAttempt>): Attempts {
    if xs == [] then at else
    var n := |xs| - 1;
    LoadAttempts(at, xs[..n])[xs[n].id := AttemptOf(xs[n])]
  }

  function LoadBatch(s: State, b: Persistence.SavedBatch): State {
    var q := BatchOf(s.requests, b);
    s.(batches := s.batches[b.id := q],
       forming := if q.state.Forming? then s.forming[q.key := b.id] else s.forming,
       sealedOrder := if q.state.Sealed? then s.sealedOrder + [b.id] else s.sealedOrder)
  }

  function LoadBatches(s: State, bs: seq<Persistence.SavedBatch>): State {
    if bs == [] then s else LoadBatch(LoadBatches(s, bs[..|bs| - 1]), bs[|bs| - 1])
  }

  /** restore_served under the name of a tenant; a name that is no number is passed
      over. The tenant has nothing outstanding. */
  function RestoreOne(s: State, r: (Bytes, U64)): State {
    match Stoull(r.0)
    case None => s
    case Some(t) =>
      s.(served := s.served[t := r.1], outstanding := if t in s.outstanding then s.outstanding else s.outstanding[t := 0])
  }

  function RestoreAll(s: State, ps: Persistence.Listing): State {
    if ps == [] then s else RestoreOne(RestoreAll(s, ps[..|ps| - 1]), ps[|ps| - 1])
  }

  /** Everything but the workers and the statistics starts over. */
  function Cleared(s: State, c: Persistence.Counters): State {
    s.(requests := map[], attempts := map[], batches := map[], index := map[], forming := map[], sealedOrder := [],
       served := map[], outstanding := map[],
       epoch := c.epoch, nextRequest := c.nextRequest, nextBatch := c.nextBatch,
       nextAttempt := c.nextAttempt, nextGeneration := c.nextGeneration)
  }

  /** load_persisted, with the fairness record listed as `ps`. */
  function Recover(s: State, t: Persistence.Tables, ps: Persistence.Listing): State {
    var s1 := LoadRequests(Cleared(s, t.counters), t.requests);
    var s2 := s1.(attempts := LoadAttempts(map[], t.attempts));
    RestoreAll(LoadBatches(s2, t.batches), ps)
  }

  lemma {:induction false} RestoreKeeps(s: State, ps: Persistence.Listing)
    ensures var s' := RestoreAll(s, ps); s' == s.(served := s'.served, outstanding := s'.outstanding)
  {
    hide Stoull;
    if ps != [] { RestoreKeeps(s, ps[..|ps| - 1]); }
  }

  // ---- std::stoull ----

  predicate Blank(c: U8) { c == 32 || 9 <= c <= 13 }

  predicate Numeral(c: U8) { 48 <= c <= 57 }

  /** The digits at the front, appended to the decimal number `acc`. */
  function Leading(b: Bytes, acc: nat): nat {
    if b == [] || !Numeral(b[0]) then acc else Leading(b[1..], 10 * acc + (b[0] - 48))
  }

  function SkipBlanks(b: Bytes): Bytes { if b == [] || !Blank(b[0]) then b else SkipBlanks(b[1..]) }

  /** Blanks, a sign, digits, anything: the number, or nothing when there are no
      digits or it needs more than 64 bits. A minus sign negates modulo 2^64. */
  function Stoull(b: Bytes): Option<U64> {
    var b1 := SkipBlanks(b);
    var negative := b1 != [] && b1[0] == 45;
    var b2 := if negative || (b1 != [] && b1[0] == 43) then b1[1..] else b1;
    if b2 == [] || !Numeral(b2[0]) then None else
    var v := Leading(b2, 0);
    if v >= TWO64 then None else Some(if negative && v != 0 then TWO64 - v else v)
  }

  // ---- the index after recovery ----

  /** The index lists a request exactly when it is eligible or waiting, once, in the
      bucket of the key recomputed from its descriptor. */
  ghost predicate IndexExact(rs: Requests, ix: Index) {
    && (forall r :: r in rs ==> Indexed(ix, r, rs[r]))
    && (forall k :: k in ix ==> BucketOk(rs, k, ix[k]))
  }

  predicate Indexed(ix: Index, r: Id, q: Request) {
    && q.key == Identity.KeyOf(q.meta.descriptor) && (q.inWaiting <==> WaitingState(q.state))
    && (q.inWaiting ==> q.key in ix && r in ix[q.key])
  }

  lemma IndexGrows(rs: Requests, ix: Index, id: Id, q: Request)
    requires IndexExact(rs, ix) && id !in rs && q.key == Identity.KeyOf(q.meta.descriptor)
    requires q.inWaiting <==> WaitingState(q.state)
    ensures IndexExact(rs[id := q], if q.inWaiting then IndexAdd(ix, q.key, id) else ix)
  {
    hide Identity.KeyOf;
    var rs', ix' := rs[id := q], if q.inWaiting then IndexAdd(ix, q.key, id) else ix;
    forall k | k in ix ensures id !in ix[k] { assert BucketOk(rs, k, ix[k]); }
    forall k | k in ix' ensures BucketOk(rs', k, ix'[k]) {
      if k in ix { assert BucketOk(rs, k, ix[k]); }
      if q.inWaiting && k == q.key { NoDupAppend(Bucket(ix, k), id); }
    }
    forall r | r in rs' ensures Indexed(ix', r, rs'[r]) {
      if r != id { assert Indexed(ix, r, rs[r]); }
    }
  }

  /** The table of requests is what the file lists. */
  ghost predicate Tabled(rs: Requests, xs: seq<Persistence.SavedRequest>) {
    && (forall i :: 0 <= i < |xs| ==> xs[i].id in rs && rs[xs[i].id] == RequestOf(xs[i]))
    && (forall r :: r in rs ==> exists i :: 0 <= i < |xs| && xs[i].id == r)
  }

  lemma {:induction false} RequestsRecovered(s: State, xs: seq<Persistence.SavedRequest>)
    requires s.requests == map[] && s.index == map[]
    requires NoDup(StateFile.Ids(StateFile.RequestId, xs))
    ensures var s' := LoadRequests(s, xs); IndexExact(s'.requests, s'.index) && Tabled(s'.requests, xs)
  {
    hide Identity.KeyOf, IndexExact, IndexAdd, StateFile.Ids, NoDup;
    if xs == [] {
      assert IndexExact(map[], map[]) by { EmptyIndex(); }
    } else {
      var n := |xs| - 1;
      var ys, x := xs[..n], xs[n];
      var s1 := LoadRequests(s, ys);
      FreshRequest(xs);
      RequestsRecovered(s, ys);
      IndexGrows(s1.requests, s1.index, x.id, RequestOf(x));
      TabledStep(s1.requests, ys, x);
      assert xs == ys + [x];
    }
  }

  lemma FreshRequest(xs: seq<Persistence.SavedRequest>)
    requires xs != [] && NoDup(StateFile.Ids(StateFile.RequestId, xs))
    ensures var ys := xs[..|xs| - 1];
            NoDup(StateFile.Ids(StateFile.RequestId, ys)) && forall i :: 0 <= i < |ys| ==> ys[i].id != xs[|xs| - 1].id
  {
    var n, ids := |xs| - 1, StateFile.Ids(StateFile.RequestId, xs);
    assert StateFile.Ids(StateFile.RequestId, xs[..n]) == ids[..n];
    forall i | 0 <= i < n ensures xs[..n][i].id != xs[n].id {
      assert ids[i] == StateFile.RequestId(xs[i]) && ids[n] == StateFile.RequestId(xs[n]) && ids[i] != ids[n];
    }
  }

  lemma EmptyIndex()
    ensures IndexExact(map[], map[])
  {
  }

  lemma TabledStep(rs: Requests, ys: seq<Persistence.SavedRequest>, x: Persistence.SavedRequest)
    requires Tabled(rs, ys) && x.id !in rs
    ensures Tabled(rs[x.id := RequestOf(x)], ys + [x])
  {
    hide RequestOf;
    var rs', xs := rs[x.id := RequestOf(x)], ys + [x];
    forall r | r in rs' ensures exists i :: 0 <= i < |xs| && xs[i].id == r {
      if r == x.id { assert xs[|ys|].id == r; }
      else {
        var i :| 0 <= i < |ys| && ys[i].id == r;
        assert xs[i].id == r;
      }
    }
  }

  lemma {:induction false} LoadBatchesKeeps(s: State, bs: seq<Persistence.SavedBatch>)
    ensures var s' := LoadBatches(s, bs);
            s'.requests == s.requests && s'.index == s.index && s'.attempts == s.attempts && SameNumbers(s, s')
  {
    hide BatchOf;
    if bs != [] { LoadBatchesKeeps(s, bs[..|bs| - 1]); }
  }

  /** Whatever file the validator accepts, the recovered index holds exactly the
      eligible and waiting requests of the file, once each, under recomputed keys. */
  lemma RecoveredIndexIsExact(s: State, file: Bytes, ps: Persistence.Listing)
    requires StateFile.Parse(file).Some?
    ensures var t := StateFile.Parse(file).value.tables;
            var s' := Recover(s, t, ps);
            IndexExact(s'.requests, s'.index) && Tabled(s'.requests, t.requests)
  {
    hide IndexExact, Tabled, BatchesTabled, AttemptsTabled, Recover, StateFile.Parse, StateFile.Coherent;
    AcceptedIsCoherent(file);
    RecoveredTables(s, StateFile.Parse(file).value.tables, ps);
  }

  lemma AcceptedIsCoherent(file: Bytes)
    requires StateFile.Parse(file).Some?
    ensures StateFile.Coherent(StateFile.Parse(file).value.tables)
  {
    hide StateFile.GetBody, StateFile.MapOf;
  }

  // ---- the batches after recovery ----

  ghost predicate Rows(rs: Requests, bm: Batches, bs: seq<Persistence.SavedBatch>) {
    && (forall i :: 0 <= i < |bs| ==> bs[i].id in bm && bm[bs[i].id] == BatchOf(rs, bs[i]))
    && (forall b :: b in bm ==> exists i :: 0 <= i < |bs| && bs[i].id == b)
  }

  /** The queue holds the sealed batches, once each. */
  ghost predicate QueueExact(bm: Batches, order: seq<Id>) {
    NoDup(order) && forall b :: b in order <==> b in bm && bm[b].state.Sealed?
  }

  /** Every key with a forming batch is mapped to one of them. */
  ghost predicate FormingMapped(bm: Batches, fm: map<Key, Id>) {
    && (forall k :: k in fm ==> fm[k] in bm && bm[fm[k]].state.Forming? && bm[fm[k]].key == k)
    && (forall b :: b in bm && bm[b].state.Forming? ==> bm[b].key in fm)
  }

  /** The batches, the queue of sealed ones and the map of forming ones are what the
      file lists. */
  ghost predicate BatchesTabled(s: State, bs: seq<Persistence.SavedBatch>) {
    Rows(s.requests, s.batches, bs) && QueueExact(s.batches, s.sealedOrder) && FormingMapped(s.batches, s.forming)
  }

  lemma RowsStep(rs: Requests, bm: Batches, ys: seq<Persistence.SavedBatch>, x: Persistence.SavedBatch)
    requires Rows(rs, bm, ys) && x.id !in bm
    ensures Rows(rs, bm[x.id := BatchOf(rs, x)], ys + [x])
  {
    hide BatchOf;
    var bm', xs := bm[x.id := BatchOf(rs, x)], ys + [x];
    forall b | b in bm' ensures exists i :: 0 <= i < |xs| && xs[i].id == b {
      if b == x.id { assert xs[|ys|].id == b; }
      else {
        var i :| 0 <= i < |ys| && ys[i].id == b;
        assert xs[i].id == b;
      }
    }
  }

  lemma QueueStep(bm: Batches, order: seq<Id>, id: Id, q: Batch)
    requires QueueExact(bm, order) && id !in bm
    ensures QueueExact(bm[id := q], if q.state.Sealed? then order + [id] else order)
  {
    NoDupAppend(order, id);
  }

  lemma FormingStep(bm: Batches, fm: map<Key, Id>, id: Id, q: Batch)
    requires FormingMapped(bm, fm) && id !in bm
    ensures FormingMapped(bm[id := q], if q.state.Forming? then fm[q.key := id] else fm)
  {
  }

  lemma BatchesTabledStep(s: State, ys: seq<Persistence.SavedBatch>, x: Persistence.SavedBatch)
    requires BatchesTabled(s, ys) && x.id !in s.batches
    ensures BatchesTabled(LoadBatch(s, x), ys + [x])
  {
    hide BatchOf, Rows, QueueExact, FormingMapped;
    var q := BatchOf(s.requests, x);
    RowsStep(s.requests, s.batches, ys, x);
    QueueStep(s.batches, s.sealedOrder, x.id, q);
    FormingStep(s.batches, s.forming, x.id, q);
  }

  lemma FreshRow(rs: Requests, bm: Batches, bs: seq<Persistence.SavedBatch>)
    requires bs != [] && NoDup(StateFile.Ids(StateFile.BatchId, bs)) && Rows(rs, bm, bs[..|bs| - 1])
    ensures bs[|bs| - 1].id !in bm && NoDup(StateFile.Ids(StateFile.BatchId, bs[..|bs| - 1]))
  {
    hide BatchOf;
    var n := |bs| - 1;
    var ids := StateFile.Ids(StateFile.BatchId, bs);
    forall i | 0 <= i < n ensures bs[..n][i].id != bs[n].id {
      assert ids[i] == StateFile.BatchId(bs[i]) && ids[n] == StateFile.BatchId(bs[n]) && ids[i] != ids[n];
    }
    DistinctInit(bs);
  }

  lemma DistinctInit(bs: seq<Persistence.SavedBatch>)
    requires bs != [] && NoDup(StateFile.Ids(StateFile.BatchId, bs))
    ensures NoDup(StateFile.Ids(StateFile.BatchId, bs[..|bs| - 1]))
  {
    assert StateFile.Ids(StateFile.BatchId, bs[..|bs| - 1]) == StateFile.Ids(StateFile.BatchId, bs)[..|bs| - 1];
  }

  lemma NothingTabled(s: State)
    requires s.batches == map[] && s.forming == map[] && s.sealedOrder == []
    ensures BatchesTabled(s, [])
  {
    hide BatchOf;
  }

  lemma {:induction false} BatchesRecovered(s: State, bs: seq<Persistence.SavedBatch>)
    requires s.batches == map[] && s.forming == map[] && s.sealedOrder == []
    requires NoDup(StateFile.Ids(StateFile.BatchId, bs))
    ensures BatchesTabled(LoadBatches(s, bs), bs)
  {
    hide LoadBatch, Rows, QueueExact, FormingMapped, StateFile.Ids, NoDup;
    if bs == [] {
      NothingTabled(s);
    } else {
      var n := |bs| - 1;
      var ys, x := bs[..n], bs[n];
      var s1 := LoadBatches(s, ys);
      DistinctInit(bs);
      BatchesRecovered(s, ys);
      FreshRow(s1.requests, s1.batches, bs);
      BatchesTabledStep(s1, ys, x);
      assert bs == ys + [x];
    }
  }

  lemma RecoveredBatches(s: State, file: Bytes, ps: Persistence.Listing)
    requires StateFile.Parse(file).Some?
    ensures var t := StateFile.Parse(file).value.tables; BatchesTabled(Recover(s, t, ps), t.batches)
  {
    hide IndexExact, Tabled, BatchesTabled, AttemptsTabled, Recover, StateFile.Parse, StateFile.Coherent;
    AcceptedIsCoherent(file);
    RecoveredTables(s, StateFile.Parse(file).value.tables, ps);
  }

  // ---- the attempts after recovery ----

  ghost predicate AttemptsTabled(at: Attempts, xs: seq<Persistence.SavedAttempt>) {
    && (forall i :: 0 <= i < |xs| ==> xs[i].id in at && at[xs[i].id] == AttemptOf(xs[i]))
    && (forall a :: a in at ==> exists i :: 0 <= i < |xs| && xs[i].id == a)
  }

  lemma {:induction false} AttemptsRecovered(xs: seq<Persistence.SavedAttempt>)
    requires NoDup(StateFile.Ids(StateFile.AttemptId, xs))
    ensures AttemptsTabled(LoadAttempts(map[], xs), xs)
  {
    hide AttemptOf;
    if xs != [] {
      var n := |xs| - 1;
      var ys, x, ids := xs[..n], xs[n], StateFile.Ids(StateFile.AttemptId, xs);
      assert StateFile.Ids(StateFile.AttemptId, ys) == ids[..n];
      AttemptsRecovered(ys);
      forall i | 0 <= i < n ensures ys[i].id != x.id {
        assert ids[i] == StateFile.AttemptId(xs[i]) && ids[n] == StateFile.AttemptId(xs[n]) && ids[i] != ids[n];
      }
      AttemptsStep(LoadAttempts(map[], ys), ys, x);
      assert xs == ys + [x];
    }
  }

  lemma AttemptsStep(at: Attempts, ys: seq<Persistence.SavedAttempt>, x: Persistence.SavedAttempt)
    requires AttemptsTabled(at, ys) && forall i :: 0 <= i < |ys| ==> ys[i].id != x.id
    ensures AttemptsTabled(at[x.id := AttemptOf(x)], ys + [x])
  {
    hide AttemptOf;
    var at', xs := at[x.id := AttemptOf(x)], ys + [x];
    forall a | a in at' ensures exists i :: 0 <= i < |xs| && xs[i].id == a {
      if a == x.id { assert xs[|ys|].id == a; }
      else {
        var i :| 0 <= i < |ys| && ys[i].id == a;
        assert xs[i].id == a;
      }
    }
  }

  /** All the tables after recovery. */
  lemma RecoveredTables(s: State, t: Persistence.Tables, ps: Persistence.Listing)
    requires StateFile.Coherent(t)
    ensures var s' := Recover(s, t, ps);
            && IndexExact(s'.requests, s'.index) && Tabled(s'.requests, t.requests)
            && AttemptsTabled(s'.attempts, t.attempts) && BatchesTabled(s', t.batches)
            && s'.workers == s.workers && s'.stats == s.stats && SameCounters(s', t.counters)
  {
    hide IndexExact, Tabled, AttemptsTabled, Rows, QueueExact, FormingMapped, LoadRequests, LoadAttempts, LoadBatches, RestoreAll, StateFile.Ids, NoDup;
    var s0 := Cleared(s, t.counters);
    var s1 := LoadRequests(s0, t.requests);
    var s2 := s1.(attempts := LoadAttempts(map[], t.attempts));
    RequestsRecovered(s0, t.requests);
    LoadRequestsKeeps(s0, t.requests);
    AttemptsRecovered(t.attempts);
    BatchesRecovered(s2, t.batches);
    LoadBatchesKeeps(s2, t.batches);
    RestoreKeeps(LoadBatches(s2, t.batches), ps);
  }

  predicate SameCounters(s: State, c: Persistence.Counters) {
    && s.epoch == c.epoch && s.nextRequest == c.nextRequest && s.nextBatch == c.nextBatch
    && s.nextAttempt == c.nextAttempt && s.nextGeneration == c.nextGeneration
  }

  predicate SameNumbers(s: State, s': State) {
    && s'.epoch == s.epoch && s'.nextRequest == s.nextRequest && s'.nextBatch == s.nextBatch
    && s'.nextAttempt == s.nextAttempt && s'.nextGeneration == s.nextGeneration
    && s'.workers == s.workers && s'.stats == s.stats
  }

  lemma {:induction false} LoadRequestsKeeps(s: State, xs: seq<Persistence.SavedRequest>)
    ensures var s' := LoadRequests(s, xs); s'.batches == s.batches && s'.forming == s.forming && s'.sealedOrder == s.sealedOrder && SameNumbers(s, s')
  {
    hide RequestOf, IndexAdd;
    if xs != [] { LoadRequestsKeeps(s, xs[..|xs| - 1]); }
  }

  // ---- the loops ----

  /** load_persisted on the scheduler object. */
  method LoadInto(f: Fabric, t: Persistence.Tables, ps: Persistence.Listing)
    modifies f
    ensures f.View() == Recover(old(f.View()), t, ps)
  {
    hide LoadRequest, LoadBatch, AttemptOf, RestoreOne;
    Reset(f, t.counters);
    ghost var s := f.View();
    for i := 0 to |t.requests|
      invariant f.View() == LoadRequests(s, t.requests[..i])
    {
      assert t.requests[..i + 1][..i] == t.requests[..i];
      LoadOne(f, t.requests[i]);
    }
    assert t.requests[..|t.requests|] == t.requests;
    ghost var s1 := f.View();
    f.attempts := map[];
    for i := 0 to |t.attempts|
      invariant f.View() == s1.(attempts := LoadAttempts(map[], t.attempts[..i]))
    {
      assert t.attempts[..i + 1][..i] == t.attempts[..i];
      f.attempts := f.attempts[t.attempts[i].id := AttemptOf(t.attempts[i])];
    }
    assert t.attempts[..|t.attempts|] == t.attempts;
    ghost var s2 := f.View();
    for i := 0 to |t.batches|
      invariant f.View() == LoadBatches(s2, t.batches[..i])
    {
      assert t.batches[..i + 1][..i] == t.batches[..i];
      LoadOneBatch(f, t.batches[i]);
    }
    assert t.batches[..|t.batches|] == t.batches;
    ghost var s3 := f.View();
    for i := 0 to |ps|
      invariant f.View() == RestoreAll(s3, ps[..i])
    {
      assert ps[..i + 1][..i] == ps[..i];
      RestoreServed(f, ps[i]);
    }
    assert ps[..|ps|] == ps;
  }

  method RestoreServed(f: Fabric, r: (Bytes, U64))
    modifies f
    ensures f.View() == RestoreOne(old(f.View()), r)
  {
    hide Stoull;
    var v := Stoull(r.0);
    if v.None? { return; }
    f.served := f.served[v.value := r.1];
    if v.value !in f.outstanding { f.outstanding := f.outstanding[v.value := 0]; }
  }

  method Reset(f: Fabric, c: Persistence.Counters)
    modifies f
    ensures f.View() == Cleared(old(f.View()), c)
  {
    ClearTables(f);
    f.served, f.outstanding := map[], map[];
    f.epoch, f.nextRequest, f.nextBatch := c.epoch, c.nextRequest, c.nextBatch;
    f.nextAttempt, f.nextGeneration := c.nextAttempt, c.nextGeneration;
  }

  method ClearTables(f: Fabric)
    modifies f
    ensures f.View() == old(f.View()).(requests := map[], attempts := map[], batches := map[], index := map[], forming := map[], sealedOrder := [])
  {
    f.requests := map[];
    f.attempts := map[];
    f.batches := map[];
    f.index := map[];
    f.forming := map[];
    f.sealedOrder := [];
  }

  method LoadOne(f: Fabric, r: Persistence.SavedRequest)
    modifies f
    ensures f.View() == LoadRequest(old(f.View()), r)
  {
    hide RequestOf, IndexAdd;
    var q := RequestOf(r);
    if q.inWaiting { f.IndexAdd(q.key, r.id); }
    f.requests := f.requests[r.id := q];
  }

  method LoadOneBatch(f: Fabric, b: Persistence.SavedBatch)
    modifies f
    ensures f.View() == LoadBatch(old(f.View()), b)
  {
    hide BatchOf;
    var q := BatchOf(f.requests, b);
    if q.state.Forming? { f.forming := f.forming[q.key := b.id]; }
    if q.state.Sealed? { f.sealedOrder := f.sealedOrder + [b.id]; }
    f.batches := f.batches[b.id := q];
  }
}
