/** A scheduler with a single request, and what a tick does to it. */
module Solo {
  import opened Types
  import opened Policy
  import opened Lists
  import opened Scheduler
  import opened Engine
  import opened Smuggling
  import Fairness
  import Identity

  const UNLIMITED := Budget(0, 0, 0, 0, 0)

  function Free(): BatchPolicy { OnlyBudget(UNLIMITED) }

  /** There is one request, in this state, at its attempt number `a`. */
  predicate Only(s: State, m: Metadata, key: Key, st: RequestState, a: Id) {
    && s.requests.Keys == {1} && s.requests[1].meta == m && s.requests[1].key == key && s.requests[1].state == st
    && s.requests[1].current == a && a in s.attempts && s.attempts[a].number == a && s.nextAttempt == a + 1 && s.nextRequest == 2
    && s.epoch == 1 && Staffed(s.workers)
  }

  /** The in-process worker is there, and no worker has a size limit. */
  predicate Staffed(ws: map<Id, Worker>) {
    0 in ws && ws[0] == Worker(0, 0, true) && forall w :: w in ws ==> ws[w].maxBatch == 0
  }

  /** It is queued, and batch `n` will be the next. */
  predicate InLine(s: State, key: Key, n: Id) {
    s.index == map[key := [1]] && s.forming == map[] && s.nextBatch == n && s.nextGeneration == n
  }

  /** Batch `n` holds the request. */
  predicate InOne(s: State, n: Id, m: Metadata, key: Key, st: BatchState) {
    && n in s.batches && s.batches[n].members == [1] && s.batches[n].accum.count == 1 && s.batches[n].descriptor == m.descriptor
    && s.batches[n].key == key && s.batches[n].state == st && s.batches[n].epoch == 1 && s.batches[n].generation == n
    && s.nextBatch == n + 1 && s.nextGeneration == n + 1 && 1 in s.requests && s.requests[1].batch == n
  }

  /** The other batches, the attempts and the counters of ended requests are the same. */
  predicate Beside(s: State, s': State, n: Id) {
    && s'.attempts == s.attempts && s'.stats.completed == s.stats.completed && s'.stats.cancelled == s.stats.cancelled
    && s'.batches.Keys == s.batches.Keys + {n} && forall b :: b in s.batches && b != n ==> s'.batches[b] == s.batches[b]
  }

  lemma FirstQueued(m: Metadata, now: int)
    requires Acceptable(m, now)
    ensures var s, key := Submit(Free(), INITIAL, m, now), Identity.KeyOf(m.descriptor);
            && Only(s, m, key, RequestState.Eligible, 1) && InLine(s, key, 1) && s.attempts[1].state.Eligible?
            && s.batches == map[] && s.stats.completed == s.stats.cancelled == 0
  {
    hide Identity.KeyOf;
    AfterFirst(UNLIMITED, m, now);
  }

  lemma Formed(s: State, m: Metadata, key: Key, a: Id, n: Id, now: int)
    requires Acceptable(m, now) && Only(s, m, key, RequestState.Eligible, a) && InLine(s, key, n)
    ensures var s' := MakeForming(Free(), s, key, now);
            && Only(s', m, key, RequestState.Reserved, a) && InOne(s', n, m, key, BatchState.Forming)
            && s'.index == map[] && s'.forming == map[key := n] && Beside(s, s', n)
  {
    hide AllowedWait, Earliest, Fill, Place, Admissible;
    var p, s0 := Free(), OpenForming(s, key, now);
    var s1 := Place(s0, n, key, 1);
    assert s0.batches[n].members == [] && s0.batches[n].accum == ZERO;
    PlacedOnly(s0, m, key, a, n);
    PlainAdmissible(UNLIMITED, s0, n, key, 1, now);
    PoolOfOne(p, s0, n, 1, now);
    FillTakes(p, s0, n, key, [1], 1, now);
    assert Without([1], 1) == [];
    NothingLeft(p, s1, n, key, now);
    assert Fill(p, s0, n, key, [1], now) == s1;
  }

  lemma PlacedOnly(s: State, m: Metadata, key: Key, a: Id, n: Id)
    requires Only(s, m, key, RequestState.Eligible, a) && s.index == map[key := [1]]
    requires n in s.batches && s.batches[n].members == [] && s.batches[n].accum == ZERO && s.nextBatch == n + 1
    requires s.nextGeneration == n + 1 && s.batches[n].generation == n
    requires s.batches[n].key == key && s.batches[n].state.Forming? && s.batches[n].epoch == 1
    ensures var s' := Place(s, n, key, 1);
            && Only(s', m, key, RequestState.Reserved, a) && InOne(s', n, m, key, BatchState.Forming)
            && s'.index == map[] && s'.forming == s.forming && Beside(s, s', n)
  {
    hide Fairness.NoteWork;
    assert s.batches[n].members + [1] == [1];
    assert WithoutFirst([1], 1) == [];
  }

  lemma Refilled(s: State, m: Metadata, key: Key, a: Id, n: Id, now: int)
    requires Only(s, m, key, RequestState.Reserved, a) && InOne(s, n, m, key, BatchState.Forming)
    requires s.index == map[] && s.forming == map[key := n]
    ensures var (s', seals) := Refill(Free(), s, key, now);
            && seals == [n] && Only(s', m, key, RequestState.Reserved, a) && InOne(s', n, m, key, BatchState.Forming)
            && s'.index == map[] && s'.forming == s.forming && Beside(s, s', n)
  {
    hide AllowedWait, Fill;
    NothingLeft(Free(), s, n, key, now);
    assert Bucket(s.index, key) == [];
    assert FillBatch(Free(), s, n, key, now) == s;
  }

  lemma SealedOne(s: State, m: Metadata, key: Key, a: Id, n: Id)
    requires Only(s, m, key, RequestState.Reserved, a) && InOne(s, n, m, key, BatchState.Forming) && s.forming == map[key := n]
    ensures var s' := Seal(s, n).0;
            && Only(s', m, key, RequestState.Batched, a) && InOne(s', n, m, key, BatchState.Sealed)
            && s'.index == s.index && s'.forming == map[] && Beside(s, s', n)
  {
  }

  lemma SealAllOne(s: State, n: Id)
    ensures SealAll(s, [n]) == Seal(s, n).0
  {
    hide Seal;
    var one: seq<Id> := [n];
    assert one[..0] == [];
    assert SealAll(s, one[..0]) == s;
  }

  lemma RefillAllSeals(p: BatchPolicy, s: State, key: Key, now: int)
    ensures RefillAll(p, s, [key], now) == Refill(p, s, key, now)
  {
    hide Refill;
    var one: seq<Key> := [key];
    assert one[..0] == [];
    assert RefillAll(p, s, one[..0], now) == (s, []);
    var seals := Refill(p, s, key, now).1;
    assert [] + seals == seals;
  }

  /** The tick forms a batch of the queued request and seals it. */
  lemma TickOne(s: State, m: Metadata, key: Key, a: Id, n: Id, now: int)
    requires Acceptable(m, now) && Only(s, m, key, RequestState.Eligible, a) && InLine(s, key, n)
    ensures var s' := Tick(Free(), s, TheTick(key), 0, now);
            && Only(s', m, key, RequestState.Batched, a) && InOne(s', n, m, key, BatchState.Sealed)
            && s'.index == map[] && s'.forming == map[] && Beside(s, s', n)
  {
    hide MakeForming, Refill, SealAll, Seal, Only, InOne, Acceptable;
    var p := Free();
    assert Expire(p, s, [], [], now) == s;
    var one: seq<Key> := [key];
    assert one[..0] == [];
    var s2 := MakeForming(p, s, key, now);
    Formed(s, m, key, a, n, now);
    assert FormNew(p, s, one, now) == s2;
    var s3 := Refill(p, s2, key, now).0;
    Refilled(s2, m, key, a, n, now);
    RefillAllSeals(p, s2, key, now);
    SealedOne(s3, m, key, a, n);
    SealAllOne(s3, n);
    SplitRunNone(SealAll(s3, [n]), 0);
  }

  /** The tick visits what its loops visit and finds the workers' limit. */
  ghost predicate RealTick(s: State, key: Key, now: int) {
    Observed(Free(), s, TheTick(key), now) && IsWorkerLimit(s.workers, 0)
  }

  lemma TickIsReal(s: State, m: Metadata, key: Key, a: Id, n: Id, now: int)
    requires Acceptable(m, now) && Only(s, m, key, RequestState.Eligible, a) && InLine(s, key, n)
    ensures RealTick(s, key, now)
  {
    hide MakeForming, RefillAll, SealAll, BeforeMerging, InOne, Beside;
    var p := Free();
    assert Expire(p, s, [], [], now) == s;
    var one: seq<Key> := [key];
    assert one[..0] == [];
    Formed(s, m, key, a, n, now);
    assert FormNew(p, s, one, now) == MakeForming(p, s, key, now);
    assert !Late(s.requests, 1, now);
    assert NoDup(one) && forall k :: k in one <==> k == key;
  }

  // ---- the local run ----

  /** The report on attempt `a` of the request. */
  function Outcome(a: Id, status: U8): MemberCompletion { MemberCompletion(1, a, status, [], 0, []) }

  lemma Started(s: State, m: Metadata, key: Key, a: Id, n: Id)
    requires Only(s, m, key, RequestState.Batched, a) && InOne(s, n, m, key, BatchState.Sealed)
    ensures n in s.batches && n in Hand(s, n, 0, 0).batches
    ensures var s' := Start(Hand(s, n, 0, 0), n);
            && Only(s', m, key, RequestState.Running, a) && InOne(s', n, m, key, BatchState.Running)
            && s'.index == s.index && s'.forming == s.forming && Beside(s, s', n)
  {
  }

  // ---- a dispatch to worker 1 ----

  /** Worker 1 under boot id 1. */
  predicate Joined(s: State) { 1 in s.workers && s.workers[1] == Worker(0, 1, true) }

  lemma WorkerJoins(s: State, m: Metadata, key: Key, n: Id)
    requires Only(s, m, key, RequestState.Batched, 1) && InOne(s, n, m, key, BatchState.Sealed)
    ensures var s' := RegisterWorker(s, 1, 1, 0);
            && Only(s', m, key, RequestState.Batched, 1) && InOne(s', n, m, key, BatchState.Sealed) && Joined(s')
            && s'.index == s.index && s'.forming == s.forming && Beside(s, s', n)
  {
  }

  /** The message that hands batch 1 to worker 1. */
  function TheDispatch(m: Metadata): Execution {
    Execution(1, 1, 1, 1, m.descriptor, [MemberWork(1, 1, m.work, m.input, m.output, m.payload)])
  }

  lemma HandedOver(s: State, m: Metadata, key: Key)
    requires Only(s, m, key, RequestState.Batched, 1) && InOne(s, 1, m, key, BatchState.Sealed) && Joined(s)
    ensures var (s', code) := PrepareDispatch(s, 1, 1, 1);
            && code.Ok? && Only(s', m, key, RequestState.Dispatched, 1) && InOne(s', 1, m, key, BatchState.Dispatched) && Joined(s')
            && s'.index == s.index && s'.forming == s.forming && Beside(s, s', 1)
            && ExecutionOf(s', 1) == TheDispatch(m)
  {
    hide Beside;
    var s' := PrepareDispatch(s, 1, 1, 1).0;
    assert Beside(s, s', 1) by { HandBeside(s); }
    var one := [1];
    assert one[..0] == [];
    assert Work(s'.requests, one[..0]) == [];
    assert Work(s'.requests, one) == [] + [MemberWork(1, 1, m.work, m.input, m.output, m.payload)];
  }

  lemma HandBeside(s: State)
    requires 1 in s.batches
    ensures Beside(s, Hand(s, 1, 1, 1), 1)
  {
  }

  /** Worker 1's report on batch 1. */
  function Report(ms: seq<MemberCompletion>): Completion { Completion(1, 1, 1, 1, 1, ms) }

  lemma ReportAccepted(s: State, m: Metadata, key: Key, ms: seq<MemberCompletion>)
    requires s.epoch == 1 && Joined(s) && 1 in s.batches && s.batches[1].generation == 1 && s.batches[1].state.Dispatched?
    ensures Authority(s, Report(ms)).Ok?
  {
  }

  // ---- the way there ----

  /** The request has been submitted and a tick has sealed its batch. */
  ghost function Ticked(m: Metadata, now: int): State {
    Tick(Free(), Submit(Free(), INITIAL, m, now), TheTick(Identity.KeyOf(m.descriptor)), 0, now)
  }

  lemma TickedShape(m: Metadata, now: int)
    requires Acceptable(m, now)
    ensures var s1, s, key := Submit(Free(), INITIAL, m, now), Ticked(m, now), Identity.KeyOf(m.descriptor);
            && RealTick(s1, key, now) && s.batches.Keys == {1}
            && Only(s, m, key, RequestState.Batched, 1) && InOne(s, 1, m, key, BatchState.Sealed)
            && s.attempts[1].state.Eligible? && s.stats.completed == s.stats.cancelled == 0 && s.index == map[] && s.forming == map[]
  {
    hide Submit, Tick, Identity.KeyOf, Acceptable, Observed;
    var s1, key := Submit(Free(), INITIAL, m, now), Identity.KeyOf(m.descriptor);
    FirstQueued(m, now);
    TickIsReal(s1, m, key, 1, 1, now);
    TickOne(s1, m, key, 1, 1, now);
  }

  /** Worker 1 has registered since, and its batch is on the way to it. */
  ghost function Sent(m: Metadata, now: int): State {
    PrepareDispatch(RegisterWorker(Ticked(m, now), 1, 1, 0), 1, 1, 1).0
  }

  lemma SentShape(m: Metadata, now: int)
    requires Acceptable(m, now)
    ensures var s3, s, key := RegisterWorker(Ticked(m, now), 1, 1, 0), Sent(m, now), Identity.KeyOf(m.descriptor);
            && Staffed(s3.workers) && s.batches.Keys == {1} && PrepareDispatch(s3, 1, 1, 1).1.Ok?
            && Only(s, m, key, RequestState.Dispatched, 1) && InOne(s, 1, m, key, BatchState.Dispatched) && Joined(s)
            && s.attempts[1].state.Eligible? && s.index == map[] && s.forming == map[] && ExecutionOf(s, 1) == TheDispatch(m)
  {
    hide Ticked, RegisterWorker, PrepareDispatch, Identity.KeyOf, Acceptable, ExecutionOf;
    var s2, key := Ticked(m, now), Identity.KeyOf(m.descriptor);
    TickedShape(m, now);
    WorkerJoins(s2, m, key, 1);
    HandedOver(RegisterWorker(s2, 1, 1, 0), m, key);
  }
}
