/** The scheduler's state and its operations as functions on that state. Each
    public call runs under one mutex, so each is one step. Where the code walks an
    unordered container, the order is an argument: a `Plan` lists it. */
module Scheduler {
  import opened Types
  import opened Policy
  import opened Lists
  import opened Fairness
  import Identity

  datatype RequestState =
    | Created | Eligible | Waiting | Reserved | Batched | SealedMember
    | Dispatched | Running | Completed | Cancelled | Expired | Rejected | Failed

  datatype BatchState =
    | Forming | Sealed | Dispatched | Running | PartiallyCompleted
    | Completed | Cancelled | Failed | Superseded

  predicate Terminal(s: RequestState) {
    s.Cancelled? || s.Expired? || s.Rejected? || s.Failed? || s.Completed?
  }

  predicate BatchTerminal(s: BatchState) {
    s.Cancelled? || s.Failed? || s.Completed? || s.Superseded?
  }

  predicate WaitingState(s: RequestState) { s.Eligible? || s.Waiting? }

  datatype Request = Request(
    meta: Metadata, state: RequestState, current: Id, attempts: seq<Id>,
    batch: Id, submitted: int, key: Key, inWaiting: bool)

  datatype Attempt = Attempt(
    number: nat, state: RequestState, outcome: U8, result: Bytes, error: U32, completed: int)

  datatype Batch = Batch(
    generation: Id, epoch: Id, state: BatchState, key: Key, phase: U8,
    descriptor: Descriptor, members: seq<Id>, accum: Accum, formed: int,
    worker: Id, boot: Id, parents: seq<Id>, children: seq<Id>,
    allowedWait: int, outcomes: map<Id, U8>)

  datatype Worker = Worker(maxBatch: U32, boot: Id, live: bool)

  datatype Stats = Stats(
    submitted: nat, admitted: nat, deferred: nat, rejected: nat, expired: nat,
    cancelled: nat, batchesSealed: nat, batchesCompleted: nat, batchesSplit: nat,
    batchesMerged: nat, completed: nat, retried: nat, retryableFailures: nat,
    stale: nat, totalWork: U64)

  type Requests = map<Id, Request>
  type Attempts = map<Id, Attempt>
  type Batches = map<Id, Batch>
  type Index = map<Key, seq<Id>>

  datatype State = State(
    requests: Requests, attempts: Attempts, batches: Batches, workers: map<Id, Worker>,
    index: Index, forming: map<Key, Id>, sealedOrder: seq<Id>,
    served: map<U64, U64>, outstanding: map<U64, U64>, stats: Stats, epoch: Id,
    nextRequest: Id, nextBatch: Id, nextAttempt: Id, nextGeneration: Id)

  const NO_STATS := Stats(0, 0, 0, 0, 0, 0, 0, 0, 0, 0, 0, 0, 0, 0, 0)

  /** The constructor registers the in-process worker 0 with boot 0. */
  const INITIAL := State(map[], map[], map[], map[0 := Worker(0, 0, true)],
                         map[], map[], [], map[], map[], NO_STATS, 1, 1, 1, 1, 1)

  const NO_DEVICE := Device(0, 0, 0, 0)
  const NO_DESCRIPTOR := Descriptor([], [], [], [], 0, 255, 0, 0, NO_DEVICE, [], [], [])

  datatype Code =
    | Ok | InvalidState | NotFound | StaleEpoch | StaleWorker | StaleAttempt
    | DeadlineExpired | SplitRequired | MergeRejected | ExecutorFailed

  // ---- the waiting index ----

  function Bucket(ix: Index, k: Key): seq<Id> { if k in ix then ix[k] else [] }

  function IndexAdd(ix: Index, k: Key, r: Id): Index { ix[k := Bucket(ix, k) + [r]] }

  /** Drops the first occurrence, and the bucket when that empties it. */
  function IndexRemove(ix: Index, k: Key, r: Id): Index {
    if k !in ix then ix else
    var rest := WithoutFirst(ix[k], r);
    if rest == [] then ix - {k} else ix[k := rest]
  }

  // ---- submission ----

  /** Records a new request with its first attempt, both in state `st`. */
  function Enroll(s: State, meta: Metadata, key: Key, now: int, st: RequestState, outcome: U8, waiting: bool): State {
    var rid, aid := s.nextRequest, s.nextAttempt;
    s.(requests := s.requests[rid := Request(meta, st, aid, [aid], 0, now, key, waiting)],
       attempts := s.attempts[aid := Attempt(1, st, outcome, [], 0, 0)],
       index := if waiting then IndexAdd(s.index, key, rid) else s.index,
       nextRequest := rid + 1, nextAttempt := aid + 1)
  }

  datatype Admission = RejectedIdentity | ExpiredOnArrival | TooLarge | Deferred | Admitted

  function Admit(p: BatchPolicy, s: State, meta: Metadata, now: int): Admission {
    if meta.descriptor.model == [] || meta.descriptor.revision == [] then RejectedIdentity
    else if Policy.Expired(meta.deadline, now) then ExpiredOnArrival
    else if Oversized(p.budget, meta) then TooLarge
    else if p.fairness.enabled && AtCap(p.fairness, s.outstanding, meta.tenant) then Deferred
    else Admitted
  }

  function AdmittedState(a: Admission): RequestState {
    match a
    case ExpiredOnArrival => RequestState.Expired
    case TooLarge => RequestState.Rejected
    case Deferred => RequestState.Waiting
    case _ => RequestState.Eligible
  }

  function AdmittedOutcome(a: Admission): U8 {
    if a.ExpiredOnArrival? then 4 else if a.TooLarge? then 2 else 0
  }

  function CountAdmission(t: Stats, a: Admission): Stats {
    match a
    case RejectedIdentity => t.(rejected := t.rejected + 1)
    case ExpiredOnArrival => t.(submitted := t.submitted + 1, expired := t.expired + 1)
    case TooLarge => t.(submitted := t.submitted + 1, rejected := t.rejected + 1)
    case Deferred => t.(submitted := t.submitted + 1, deferred := t.deferred + 1)
    case Admitted => t.(submitted := t.submitted + 1, admitted := t.admitted + 1)
  }

  /** do_submit. Only an admitted request enters the waiting index. */
  function Submit(p: BatchPolicy, s: State, meta: Metadata, now: int): (r: State)
    ensures r.workers == s.workers && r.epoch == s.epoch
  {
    var a, key := Admit(p, s, meta, now), Identity.KeyOf(meta.descriptor);
    if a.RejectedIdentity? then s.(stats := CountAdmission(s.stats, a)) else
    Enroll(s, meta, key, now, AdmittedState(a), AdmittedOutcome(a), a.Admitted?)
      .(stats := CountAdmission(s.stats, a),
        outstanding := if a.Admitted? then NoteWork(s.outstanding, meta.tenant, meta.work) else s.outstanding)
  }

  // ---- resource totals ----

  function Load(m: Metadata): Accum { Accum(1, m.input, m.output, m.work, m.memory) }

  function Plus(a: Accum, b: Accum): Accum {
    Accum(Add32(a.count, b.count), Add64(a.input, b.input), Add64(a.output, b.output),
          Add64(a.work, b.work), Add64(a.memory, b.memory))
  }

  /** recompute_accum: the members' sizes added up in wrapping arithmetic. */
  function Tally(rs: Requests, members: seq<Id>): Accum {
    if members == [] then ZERO else
    var n := |members| - 1;
    var t := Tally(rs, members[..n]);
    if members[n] in rs then Plus(t, Load(rs[members[n]].meta)) else t
  }

  function DescriptorFrom(rs: Requests, d: Descriptor, members: seq<Id>): Descriptor {
    if members != [] && d.model == [] && members[0] in rs then rs[members[0]].meta.descriptor else d
  }

  function Recompute(rs: Requests, b: Batch): Batch {
    b.(accum := Tally(rs, b.members), descriptor := DescriptorFrom(rs, b.descriptor, b.members))
  }

  // ---- forming and filling ----

  function MinWait(p: BatchPolicy, rs: Requests, members: seq<Id>, now: int): int {
    if members == [] then
      if p.globalMaxWait > 0 then Min(NO_DEADLINE, p.globalMaxWait) else NO_DEADLINE
    else
      var n := |members| - 1;
      var w := MinWait(p, rs, members[..n], now);
      if members[n] !in rs then w else
      var m := rs[members[n]].meta;
      var w' := if m.latency in p.classWait then Min(w, p.classWait[m.latency]) else w;
      if HasDeadline(m.deadline) then Min(w', Remaining(m.deadline, now)) else w'
  }

  function AllowedWait(p: BatchPolicy, rs: Requests, b: Batch, now: int): int {
    var w := MinWait(p, rs, b.members, now);
    if p.sealSolo && b.accum.count == 1 then 0 else w
  }

  /** The batch with one more member. */
  function Grown(b: Batch, rid: Id, m: Metadata): Batch {
    var members := b.members + [rid];
    b.(members := members, accum := Plus(b.accum, Load(m)).(count := |members| % 0x1_0000_0000),
       descriptor := if |members| == 1 then m.descriptor else b.descriptor)
  }

  function Taken(r: Request, bid: Id): Request { r.(state := RequestState.Reserved, batch := bid, inWaiting := false) }

  /** add_member_to_batch, then the removal from the waiting index. */
  function Place(s: State, bid: Id, key: Key, rid: Id): (r: State)
    requires bid in s.batches && rid in s.requests
    ensures bid in r.batches && r.requests.Keys == s.requests.Keys
  {
    var b, r := s.batches[bid], s.requests[rid];
    s.(batches := s.batches[bid := Grown(b, rid, r.meta)],
       requests := s.requests[rid := Taken(r, bid)],
       index := IndexRemove(s.index, key, rid),
       served := NoteWork(s.served, r.meta.tenant, r.meta.work),
       outstanding := NoteWork(s.outstanding, r.meta.tenant, r.meta.work))
  }

  function CountTenant(rs: Requests, members: seq<Id>, t: U64): nat {
    if members == [] then 0 else
    var n := |members| - 1;
    CountTenant(rs, members[..n], t) + (if members[n] in rs && rs[members[n]].meta.tenant == t then 1 else 0)
  }

  /** May this waiting request join the batch now, budget included? */
  predicate Admissible(p: BatchPolicy, s: State, bid: Id, rid: Id, now: int)
    requires bid in s.batches
  {
    && rid in s.requests
    && var r := s.requests[rid];
       var b := s.batches[bid];
       && WaitingState(r.state)
       && !Policy.Expired(r.meta.deadline, now)
       && !(p.fairness.enabled && AtCap(p.fairness, s.outstanding, r.meta.tenant))
       && (p.fairness.maxContribution != 0 ==>
             CountTenant(s.requests, b.members, r.meta.tenant) % 0x1_0000_0000 < p.fairness.maxContribution)
       && AllowsAdd(p.budget, b.accum, Load(r.meta))
  }

  function Pool(p: BatchPolicy, s: State, bid: Id, cands: seq<Id>, now: int): (pool: seq<Id>)
    requires bid in s.batches
    ensures forall x :: x in pool <==> x in cands && Admissible(p, s, bid, x, now)
  {
    if cands == [] then [] else
    var rest := Pool(p, s, bid, cands[1..], now);
    if Admissible(p, s, bid, cands[0], now) then [cands[0]] + rest else rest
  }

  /** The order in which candidates are served: the least-served tenant first,
      then arrival, then request number. */
  ghost predicate Before(p: BatchPolicy, s: State, x: Id, y: Id)
    requires x in s.requests && y in s.requests
  {
    var rx, ry := s.requests[x], s.requests[y];
    if rx.meta.tenant != ry.meta.tenant then Prefer(p.fairness, s.served, rx.meta.tenant, ry.meta.tenant)
    else if rx.submitted != ry.submitted then rx.submitted < ry.submitted
    else x < y
  }

  ghost function Pick(p: BatchPolicy, s: State, pool: seq<Id>): (x: Id)
    requires pool != [] && forall c :: c in pool ==> c in s.requests
    ensures x in pool
  {
    if |pool| == 1 then pool[0] else
    var best := Pick(p, s, pool[1..]);
    if Before(p, s, pool[0], best) then pool[0] else best
  }

  /** fill_forming. */
  ghost function Fill(p: BatchPolicy, s: State, bid: Id, key: Key, cands: seq<Id>, now: int): (r: State)
    requires bid in s.batches
    ensures bid in r.batches && r.workers == s.workers && r.epoch == s.epoch
    decreases |cands|
  {
    var pool := Pool(p, s, bid, cands, now);
    if pool == [] then s else
    var pick := Pick(p, s, pool);
    Fill(p, Place(s, bid, key, pick), bid, key, Without(cands, pick), now)
  }

  ghost function FillBatch(p: BatchPolicy, s: State, bid: Id, key: Key, now: int): (r: State)
    requires bid in s.batches
    ensures bid in r.batches && r.workers == s.workers && r.epoch == s.epoch
  {
    Fill(p, s, bid, key, Bucket(s.index, key), now)
  }

  function Retime(p: BatchPolicy, s: State, bid: Id, now: int): (r: State)
    requires bid in s.batches
    ensures r.workers == s.workers && r.epoch == s.epoch
  {
    var b := s.batches[bid];
    s.(batches := s.batches[bid := b.(allowedWait := AllowedWait(p, s.requests, b, now))])
  }

  /** A batch without members yet; its phase is that of the first in the bucket. */
  function Empty(rs: Requests, bucket: seq<Id>, generation: Id, epoch: Id, key: Key, now: int): Batch {
    var phase := if bucket != [] && bucket[0] in rs then rs[bucket[0]].meta.descriptor.phase else 0;
    Batch(generation, epoch, BatchState.Forming, key, phase, NO_DESCRIPTOR, [], ZERO,
          now, 0, 0, [], [], NO_DEADLINE, map[])
  }

  function OpenForming(s: State, key: Key, now: int): State {
    var b := Empty(s.requests, Bucket(s.index, key), s.nextGeneration, s.epoch, key, now);
    s.(batches := s.batches[s.nextBatch := b], forming := s.forming[key := s.nextBatch],
       nextBatch := s.nextBatch + 1, nextGeneration := s.nextGeneration + 1)
  }

  /** The arrival of the earliest member, when that is before `now`. */
  function Earliest(rs: Requests, members: seq<Id>, now: int): int {
    if members == [] then now else
    var n := |members| - 1;
    var e := Earliest(rs, members[..n], now);
    if members[n] in rs && rs[members[n]].submitted < e then rs[members[n]].submitted else e
  }

  function Backdate(s: State, bid: Id, now: int): (r: State)
    requires bid in s.batches
    ensures r.workers == s.workers && r.epoch == s.epoch
  {
    var b := s.batches[bid];
    s.(batches := s.batches[bid := b.(formed := Earliest(s.requests, b.members, now))])
  }

  ghost function MakeForming(p: BatchPolicy, s: State, key: Key, now: int): (r: State)
    ensures r.workers == s.workers && r.epoch == s.epoch
  {
    var bid := s.nextBatch;
    var s1 := FillBatch(p, OpenForming(s, key, now), bid, key, now);
    Backdate(Retime(p, s1, bid, now), bid, now)
  }

  // ---- sealing, splitting, merging ----

  /** Moves the listed requests that are in state `from` to state `to`. */
  function Advance(rs: Requests, members: seq<Id>, from: RequestState, to: RequestState): (r: Requests) {
    map x | x in rs :: if x in members && rs[x].state == from then rs[x].(state := to) else rs[x]
  }

  function Seal(s: State, bid: Id): (r: (State, bool))
    ensures r.0.workers == s.workers && r.0.epoch == s.epoch
  {
    if bid !in s.batches || !s.batches[bid].state.Forming? then (s, false) else
    var b := s.batches[bid];
    (s.(batches := s.batches[bid := b.(state := BatchState.Sealed)],
        requests := Advance(s.requests, b.members, RequestState.Reserved, RequestState.Batched),
        forming := s.forming - {b.key},
        sealedOrder := s.sealedOrder + [bid],
        stats := s.stats.(batchesSealed := s.stats.batchesSealed + 1)), true)
  }

  /** Points the listed requests at batch `to`. */
  function Rehome(rs: Requests, members: seq<Id>, to: Id): Requests {
    map x | x in rs :: if x in members then rs[x].(batch := to) else rs[x]
  }

  predicate CanMerge(p: BatchPolicy, a: Batch, b: Batch) {
    && a.key == b.key && a.phase == b.phase && a.state == b.state
    && (a.state.Sealed? || a.state.Forming?)
    && p.mergeEnabled
    && AllowsAdd(p.budget, ZERO, Plus(a.accum, b.accum))
  }

  /** The batch `a` with the members and the lineage of `b`. */
  function Absorbed(rs: Requests, a: Batch, b: Batch, bid: Id): Batch {
    Recompute(rs, a.(members := a.members + b.members, parents := a.parents + b.parents + [bid],
                     children := a.children + b.children))
  }

  function Retired(b: Batch): Batch { b.(state := BatchState.Superseded) }

  function Redirected(forming: map<Key, Id>, key: Key, from: Id, to: Id): map<Key, Id> {
    if key in forming && forming[key] == from then forming[key := to] else forming
  }

  /** `b` absorbed into `a`. */
  function MergeDone(s: State, aid: Id, bid: Id): State
    requires aid in s.batches && bid in s.batches
  {
    var a, b := s.batches[aid], s.batches[bid];
    var rs := Rehome(s.requests, b.members, aid);
    s.(requests := rs,
       batches := s.batches[aid := Absorbed(rs, a, b, bid)][bid := Retired(b)],
       sealedOrder := Without(s.sealedOrder, bid),
       forming := Redirected(s.forming, b.key, bid, aid),
       stats := s.stats.(batchesMerged := s.stats.batchesMerged + 1))
  }

  /** do_merge for two different batches. */
  function Merge(p: BatchPolicy, s: State, aid: Id, bid: Id): (r: (State, Code))
    ensures r.0.workers == s.workers && r.0.epoch == s.epoch
  {
    if aid == bid || aid !in s.batches || bid !in s.batches
       || !CanMerge(p, s.batches[aid], s.batches[bid]) then (s, MergeRejected)
    else (MergeDone(s, aid, bid), Ok)
  }

  predicate Splittable(b: Batch) {
    && !b.state.Dispatched? && !b.state.Running? && !BatchTerminal(b.state)
    && |b.members| / 2 != 0
  }

  /** A new batch that continues `b` over part of its list. */
  function Offspring(rs: Requests, b: Batch, members: seq<Id>, parents: seq<Id>, children: seq<Id>): (c: Batch)
    ensures c.members == members && c.key == b.key && c.state == b.state && c.accum == Tally(rs, members)
    ensures c.generation == b.generation && c.epoch == b.epoch && c.phase == b.phase
  {
    Recompute(rs, b.(members := members, outcomes := map[], parents := parents, children := children))
  }

  function SplitRequests(s: State, bid: Id): Requests
    requires bid in s.batches
  {
    var ms := s.batches[bid].members;
    Rehome(Rehome(s.requests, ms[|ms| / 2..], s.nextBatch), ms[..|ms| / 2], bid)
  }

  /** What remains under the old number. */
  function SplitRest(rs: Requests, b: Batch, children: seq<Id>, st: BatchState): (c: Batch)
    ensures c.members == b.members[..|b.members| / 2] && c.key == b.key && c.state == st
    ensures c.accum == Tally(rs, c.members) && c.generation == b.generation && c.epoch == b.epoch
  {
    Recompute(rs, b.(members := b.members[..|b.members| / 2], children := b.children + children)).(state := st)
  }

  /** A sealed batch is superseded: its second half goes to a child, and its
      first half continues under a further new number. */
  function SplitSealed(s: State, bid: Id): State
    requires bid in s.batches
  {
    var b, rs := s.batches[bid], SplitRequests(s, bid);
    var child: Id, firstId: Id := s.nextBatch, s.nextBatch + 1;
    var rest := SplitRest(rs, b, [child, firstId], BatchState.Superseded);
    var c := Offspring(rs, b, b.members[|b.members| / 2..], [bid, firstId], []);
    var f := Offspring(rs, b.(descriptor := rest.descriptor), b.members[..|b.members| / 2], [bid], [child]);
    s.(requests := rs, batches := s.batches[child := c][bid := rest][firstId := f],
       sealedOrder := WithoutFirst(s.sealedOrder, bid) + [firstId], nextBatch := s.nextBatch + 2)
  }

  /** Any other batch keeps its first half. */
  function SplitOpen(s: State, bid: Id): State
    requires bid in s.batches
  {
    var b, rs := s.batches[bid], SplitRequests(s, bid);
    var child: Id := s.nextBatch;
    var c := Offspring(rs, b, b.members[|b.members| / 2..], [bid], []);
    s.(requests := rs, batches := s.batches[child := c][bid := SplitRest(rs, b, [child], b.state)],
       forming := s.forming[b.key := bid], nextBatch := s.nextBatch + 1)
  }

  /** do_split. */
  function Split(s: State, bid: Id): (r: (State, Code))
    ensures r.0.workers == s.workers && r.0.epoch == s.epoch
  {
    if bid !in s.batches || !Splittable(s.batches[bid]) then (s, SplitRequired) else
    var s' := if s.batches[bid].state.Sealed? then SplitSealed(s, bid) else SplitOpen(s, bid);
    (s'.(stats := s.stats.(batchesSplit := s.stats.batchesSplit + 1)), Ok)
  }

  // ---- cancellation and expiry ----

  function SetAttempt(at: Attempts, aid: Id, st: RequestState, outcome: U8, now: int): Attempts {
    if aid in at then at[aid := at[aid].(state := st, outcome := outcome, completed := now)] else at
  }

  function CountEnd(t: Stats, st: RequestState): Stats {
    if st.Expired? then t.(expired := t.expired + 1)
    else if st.Cancelled? then t.(cancelled := t.cancelled + 1)
    else t
  }

  /** Ends a request that is in no batch, taking it out of the index. */
  function EndWaiting(s: State, rid: Id, st: RequestState, outcome: U8, now: int): (r: State)
    requires rid in s.requests
    ensures r.workers == s.workers && r.epoch == s.epoch
  {
    var r := s.requests[rid];
    s.(requests := s.requests[rid := r.(state := st, inWaiting := false)],
       attempts := SetAttempt(s.attempts, r.current, st, outcome, now),
       stats := CountEnd(s.stats, st))
  }

  predicate InBatch(st: RequestState) {
    st.Reserved? || st.Batched? || st.Dispatched? || st.Running? || st.SealedMember?
  }

  function Shrunk(p: BatchPolicy, rs: Requests, b: Batch, rid: Id, now: int): Batch {
    var b1 := Recompute(rs, b.(members := Without(b.members, rid)));
    b1.(allowedWait := AllowedWait(p, rs, b1, now))
  }

  function CancelForming(p: BatchPolicy, s: State, rid: Id, now: int): (r: State)
    requires rid in s.requests && s.requests[rid].batch in s.batches
    ensures r.workers == s.workers && r.epoch == s.epoch
  {
    var r := s.requests[rid];
    s.(batches := s.batches[r.batch := Shrunk(p, s.requests, s.batches[r.batch], rid, now)],
       requests := s.requests[rid := r.(state := RequestState.Cancelled, batch := 0)],
       attempts := SetAttempt(s.attempts, r.current, RequestState.Cancelled, 3, now),
       stats := CountEnd(s.stats, RequestState.Cancelled))
  }

  function CancelPlaced(s: State, rid: Id, now: int): (r: State)
    requires rid in s.requests && s.requests[rid].batch in s.batches
    ensures r.workers == s.workers && r.epoch == s.epoch
  {
    var r := s.requests[rid];
    var b := s.batches[r.batch];
    s.(batches := s.batches[r.batch := b.(outcomes := b.outcomes[rid := 3])],
       requests := s.requests[rid := r.(state := RequestState.Cancelled)],
       attempts := SetAttempt(s.attempts, r.current, RequestState.Cancelled, 3, now),
       stats := CountEnd(s.stats, RequestState.Cancelled))
  }

  function Cancel(p: BatchPolicy, s: State, rid: Id, now: int): (r: (State, Code))
    ensures r.0.workers == s.workers && r.0.epoch == s.epoch
  {
    hide EndWaiting, CancelForming, CancelPlaced, IndexRemove;
    if rid !in s.requests then (s, NotFound) else
    var r := s.requests[rid];
    if Terminal(r.state) then (s, InvalidState)
    else if !InBatch(r.state) then
      var s1 := if r.inWaiting then s.(index := IndexRemove(s.index, r.key, rid)) else s;
      (EndWaiting(s1, rid, RequestState.Cancelled, 3, now), Ok)
    else if r.batch !in s.batches then (s, InvalidState)
    else
      var b := s.batches[r.batch];
      if b.state.Forming? then (CancelForming(p, s, rid, now), Ok)
      else if b.state.Sealed? || b.state.Dispatched? || b.state.Running? then (CancelPlaced(s, rid, now), Ok)
      else (s, InvalidState)
  }

  /** One waiting request whose deadline has passed. */
  function ExpireOne(s: State, rid: Id, now: int): (r: State)
    ensures r.workers == s.workers && r.epoch == s.epoch
  {
    if rid !in s.requests then s else
    var s1 := s.(index := IndexRemove(s.index, s.requests[rid].key, rid));
    if Terminal(s.requests[rid].state) then s1 else EndWaiting(s1, rid, RequestState.Expired, 4, now)
  }

  function ExpireWaiting(s: State, ids: seq<Id>, now: int): (r: State)
    ensures r.workers == s.workers && r.epoch == s.epoch
  {
    if ids == [] then s else
    var n := |ids| - 1;
    ExpireOne(ExpireWaiting(s, ids[..n], now), ids[n], now)
  }

  function CancelAll(p: BatchPolicy, s: State, ids: seq<Id>, now: int): (r: State)
    ensures r.workers == s.workers && r.epoch == s.epoch
  {
    if ids == [] then s else
    var n := |ids| - 1;
    Cancel(p, CancelAll(p, s, ids[..n], now), ids[n], now).0
  }

  function Expire(p: BatchPolicy, s: State, waiting: seq<Id>, placed: seq<Id>, now: int): (r: State)
    ensures r.workers == s.workers && r.epoch == s.epoch
  {
    CancelAll(p, ExpireWaiting(s, waiting, now), placed, now)
  }

  // ---- the tick ----

  /** The iteration orders of one tick. */
  datatype Plan = Plan(
    waiting: seq<Id>, placed: seq<Id>, newKeys: seq<Key>, formKeys: seq<Key>, mergeKeys: seq<Key>)

  ghost function FormNew(p: BatchPolicy, s: State, keys: seq<Key>, now: int): (r: State)
    ensures r.workers == s.workers && r.epoch == s.epoch
  {
    if keys == [] then s else
    var n := |keys| - 1;
    var s1 := FormNew(p, s, keys[..n], now);
    if keys[n] in s1.forming then s1 else MakeForming(p, s1, keys[n], now)
  }

  /** BatchFormer::decide, reduced to "seal or wait". */
  predicate SealNow(p: BatchPolicy, b: Batch, drained: bool, now: int) {
    || (b.allowedWait != NO_DEADLINE && now - b.formed >= b.allowedWait)
    || (p.budget.maxRequests != 0 && b.accum.count >= p.budget.maxRequests)
    || (p.budget.maxInput != 0 && b.accum.input >= p.budget.maxInput)
    || (p.budget.maxOutput != 0 && b.accum.output >= p.budget.maxOutput)
    || (p.budget.maxWork != 0 && b.accum.work >= p.budget.maxWork)
    || (drained && (b.accum.count >= p.minimumPreferred || b.accum.count == 0))
  }

  /** No waiting request is left under this key. */
  predicate Drained(s: State, key: Key) {
    forall m :: m in Bucket(s.index, key) ==> !(m in s.requests && WaitingState(s.requests[m].state))
  }

  /** Fills one forming batch and says whether to seal it. */
  ghost function Refill(p: BatchPolicy, s: State, key: Key, now: int): (r: (State, seq<Id>))
    ensures r.0.workers == s.workers && r.0.epoch == s.epoch
  {
    if key !in s.forming || s.forming[key] !in s.batches then (s, []) else
    var bid := s.forming[key];
    var s1 := Retime(p, FillBatch(p, s, bid, s.batches[bid].key, now), bid, now);
    (s1, if SealNow(p, s1.batches[bid], Drained(s1, s.batches[bid].key), now) then [bid] else [])
  }

  ghost function RefillAll(p: BatchPolicy, s: State, keys: seq<Key>, now: int): (r: (State, seq<Id>))
    ensures r.0.workers == s.workers && r.0.epoch == s.epoch
  {
    if keys == [] then (s, []) else
    var n := |keys| - 1;
    var (s1, seals) := RefillAll(p, s, keys[..n], now);
    var (s2, more) := Refill(p, s1, keys[n], now);
    (s2, seals + more)
  }

  function SealAll(s: State, ids: seq<Id>): (r: State)
    ensures r.workers == s.workers && r.epoch == s.epoch
  {
    if ids == [] then s else
    var n := |ids| - 1;
    Seal(SealAll(s, ids[..n]), ids[n]).0
  }

  /** The sealed batches of one key, in sealing order. */
  function SealedOf(bs: Batches, order: seq<Id>, key: Key): seq<Id> {
    if order == [] then [] else
    var n := |order| - 1;
    var rest := SealedOf(bs, order[..n], key);
    if order[n] in bs && bs[order[n]].state.Sealed? && bs[order[n]].key == key then rest + [order[n]] else rest
  }

  /** Merges neighbours of `v` until the cycle limit, which is compared with the
      total number of merges so far. */
  function MergeRun(p: BatchPolicy, s: State, v: seq<Id>): (r: State)
    decreases |v|
    ensures r.workers == s.workers && r.epoch == s.epoch
  {
    if |v| < 2 || s.stats.batchesMerged >= p.maxMerges then s
    else MergeRun(p, Merge(p, s, v[0], v[1]).0, v[1..])
  }

  function MergeKeys(p: BatchPolicy, s: State, bs: Batches, order: seq<Id>, keys: seq<Key>): (r: State)
    ensures r.workers == s.workers && r.epoch == s.epoch
  {
    if keys == [] then s else
    var n := |keys| - 1;
    MergeRun(p, MergeKeys(p, s, bs, order, keys[..n]), SealedOf(bs, order, keys[n]))
  }

  /** The smallest non-zero batch size of a live worker, zero when none is set. */
  ghost predicate IsWorkerLimit(ws: map<Id, Worker>, m: U32) {
    if m == 0 then forall w :: w in ws && ws[w].live ==> ws[w].maxBatch == 0
    else
      && (exists w :: w in ws && ws[w].live && ws[w].maxBatch == m)
      && (forall w :: w in ws && ws[w].live && ws[w].maxBatch != 0 ==> m <= ws[w].maxBatch)
  }

  /** The trailing loop of the tick: split what exceeds the worker limit. */
  function SplitRun(s: State, limit: U32, i: nat): (r: State)
    decreases |s.sealedOrder| - i
    ensures r.workers == s.workers && r.epoch == s.epoch
  {
    if i >= |s.sealedOrder| then s else
    var bid := s.sealedOrder[i];
    if bid in s.batches && s.batches[bid].state.Sealed? && limit != 0 && s.batches[bid].accum.count > limit
    then SplitRun(Split(s, bid).0, limit, i + 1)
    else SplitRun(s, limit, i + 1)
  }

  ghost function Tick(p: BatchPolicy, s: State, plan: Plan, limit: U32, now: int): (r: State)
    ensures r.workers == s.workers && r.epoch == s.epoch
  {
    var s1 := Expire(p, s, plan.waiting, plan.placed, now);
    var s2 := FormNew(p, s1, plan.newKeys, now);
    var (s3, seals) := RefillAll(p, s2, plan.formKeys, now);
    var s4 := SealAll(s3, seals);
    var s5 := if p.mergeEnabled then MergeKeys(p, s4, s4.batches, s4.sealedOrder, plan.mergeKeys) else s4;
    SplitRun(s5, limit, 0)
  }

  // ---- dispatch ----

  function Work(rs: Requests, members: seq<Id>): seq<MemberWork> {
    if members == [] then [] else
    var n := |members| - 1;
    var w := Work(rs, members[..n]);
    if members[n] !in rs then w else
    var r := rs[members[n]];
    w + [MemberWork(members[n], r.current, r.meta.work, r.meta.input, r.meta.output, r.meta.payload)]
  }

  function ExecutionOf(s: State, bid: Id): Execution
    requires bid in s.batches
  {
    var b := s.batches[bid];
    Execution(bid, b.generation, b.epoch, b.worker, b.descriptor, Work(s.requests, b.members))
  }

  /** Hands a batch to a worker: the batch and its live members move on together. */
  function Hand(s: State, bid: Id, worker: Id, boot: Id): (r: State)
    requires bid in s.batches
    ensures r.workers == s.workers && r.epoch == s.epoch
  {
    var b := s.batches[bid];
    s.(batches := s.batches[bid := b.(state := BatchState.Dispatched, worker := worker, boot := boot)],
       requests := Advance(s.requests, b.members, RequestState.Batched, RequestState.Dispatched))
  }

  function PrepareDispatch(s: State, bid: Id, worker: Id, boot: Id): (r: (State, Code))
    ensures r.0.workers == s.workers && r.0.epoch == s.epoch
  {
    if bid !in s.batches then (s, NotFound)
    else if !s.batches[bid].state.Sealed? then (s, InvalidState)
    else if worker !in s.workers || !s.workers[worker].live || s.workers[worker].boot != boot then (s, StaleWorker)
    else (Hand(s, bid, worker, boot), Ok)
  }

  function Start(s: State, bid: Id): (r: State)
    requires bid in s.batches
    ensures r.workers == s.workers && r.epoch == s.epoch
  {
    var b := s.batches[bid];
    s.(batches := s.batches[bid := b.(state := BatchState.Running)],
       requests := Advance(s.requests, b.members, RequestState.Dispatched, RequestState.Running))
  }

  // ---- completion ----

  function SetOutcome(bs: Batches, bid: Id, rid: Id, status: U8): Batches {
    if bid in bs then bs[bid := bs[bid].(outcomes := bs[bid].outcomes[rid := status])] else bs
  }

  /** The part common to every terminal outcome. */
  function Settle(s: State, rid: Id, aid: Id, st: RequestState, mc: MemberCompletion, now: int): State
    requires rid in s.requests && aid in s.attempts
  {
    var r := s.requests[rid];
    var a := s.attempts[aid].(state := st, outcome := mc.status, completed := now);
    var a' := if st.Completed? then a.(result := mc.result)
              else if st.Failed? then a.(error := mc.errorCode) else a;
    s.(requests := s.requests[rid := r.(state := st)],
       attempts := s.attempts[aid := a'],
       batches := SetOutcome(s.batches, r.batch, mc.request, mc.status))
  }

  /** A fresh attempt puts the request back into the waiting index. */
  function Requeue(s: State, rid: Id, number: nat): (r: State)
    requires rid in s.requests
    ensures r.workers == s.workers && r.epoch == s.epoch
  {
    var r := s.requests[rid];
    var aid := s.nextAttempt;
    s.(requests := s.requests[rid := r.(current := aid, attempts := r.attempts + [aid],
                                        state := RequestState.Eligible, batch := 0, inWaiting := true)],
       attempts := s.attempts[aid := Attempt(number, RequestState.Eligible, 0, [], 0, 0)],
       index := IndexAdd(s.index, r.key, rid),
       nextAttempt := aid + 1,
       stats := s.stats.(retried := s.stats.retried + 1))
  }

  function OutcomeState(status: U8): RequestState {
    if status == 0 then RequestState.Completed
    else if status == 3 then RequestState.Cancelled
    else if status == 4 then RequestState.Expired
    else RequestState.Failed
  }

  function CountOutcome(t: Stats, status: U8, work: U64): Stats {
    if status == 0 then t.(completed := t.completed + 1, totalWork := Add64(t.totalWork, work))
    else if status == 1 then t.(retryableFailures := t.retryableFailures + 1)
    else if status == 3 then t.(cancelled := t.cancelled + 1)
    else if status == 4 then t.(expired := t.expired + 1)
    else if status == 5 || status == 6 then t.(stale := t.stale + 1)
    else t
  }

  /** apply_member_outcome. Statuses above 4 end nothing. */
  function ApplyOutcome(p: BatchPolicy, s: State, rid: Id, aid: Id, mc: MemberCompletion, now: int): (r: State)
    requires rid in s.requests && aid in s.attempts
    ensures r.workers == s.workers && r.epoch == s.epoch
  {
    var meta, number := s.requests[rid].meta, s.attempts[aid].number;
    var t := CountOutcome(s.stats, mc.status, meta.work);
    if mc.status > 4 then s.(stats := t) else
    var s1 := Settle(s, rid, aid, OutcomeState(mc.status), mc, now)
                .(stats := t,
                  outstanding := if mc.status == 0 && p.fairness.enabled
                                 then NoteDone(s.outstanding, meta.tenant, meta.work) else s.outstanding);
    if mc.status == 1 && p.retryEnabled && number < p.maxAttempts then Requeue(s1, rid, number + 1) else s1
  }

  /** One member of a report, behind the staleness and duplicate guards. */
  function ReportOne(p: BatchPolicy, s: State, mc: MemberCompletion, now: int): (r: State)
    ensures r.workers == s.workers && r.epoch == s.epoch
  {
    if mc.request !in s.requests then s
    else if s.requests[mc.request].current != mc.attempt then
      s.(stats := s.stats.(stale := s.stats.stale + 1))
    else if mc.attempt !in s.attempts then s
    else
      var st := s.attempts[mc.attempt].state;
      if st.Completed? || st.Cancelled? || st.Expired? || st.Failed? then s
      else ApplyOutcome(p, s, mc.request, mc.attempt, mc, now)
  }

  function ReportAll(p: BatchPolicy, s: State, ms: seq<MemberCompletion>, now: int): (r: State)
    ensures r.workers == s.workers && r.epoch == s.epoch
  {
    if ms == [] then s else
    var n := |ms| - 1;
    ReportOne(p, ReportAll(p, s, ms[..n], now), ms[n], now)
  }

  predicate AllTerminal(rs: Requests, members: seq<Id>) {
    forall m :: m in members ==> m in rs && Terminal(rs[m].state)
  }

  function Close(s: State, bid: Id): (r: State)
    ensures r.workers == s.workers && r.epoch == s.epoch
  {
    if bid !in s.batches then s else
    var done := AllTerminal(s.requests, s.batches[bid].members);
    var st := if done then BatchState.Completed else BatchState.PartiallyCompleted;
    s.(batches := s.batches[bid := s.batches[bid].(state := st)],
       stats := if done then s.stats.(batchesCompleted := s.stats.batchesCompleted + 1) else s.stats)
  }

  /** Why a report is turned away, or Ok. */
  function Authority(s: State, c: Completion): Code {
    if c.epoch != s.epoch then StaleEpoch
    else if c.worker !in s.workers || !s.workers[c.worker].live || s.workers[c.worker].boot != c.boot then StaleWorker
    else if c.batch !in s.batches then NotFound
    else if s.batches[c.batch].generation != c.generation then StaleAttempt
    else if !s.batches[c.batch].state.Dispatched? && !s.batches[c.batch].state.Running? then InvalidState
    else Ok
  }

  function Complete(p: BatchPolicy, s: State, c: Completion, now: int): (r: (State, Code))
    ensures r.0.workers == s.workers && r.0.epoch == s.epoch
  {
    var code := Authority(s, c);
    if code.Ok? then (Close(ReportAll(p, s, c.members, now), c.batch), Ok)
    else if code.InvalidState? then (s, code)
    else (s.(stats := s.stats.(stale := s.stats.stale + 1)), code)
  }

  /** What a local run reports: each result is a success. */
  function Successes(results: seq<MemberResult>): seq<MemberCompletion> {
    seq(|results|, i requires 0 <= i < |results| =>
      MemberCompletion(results[i].request, results[i].attempt, 0, results[i].output, 0, []))
  }

  /** do_dispatch_and_run when the executor returns `results`. */
  function DispatchAndRun(p: BatchPolicy, s: State, bid: Id, worker: Id,
                          results: seq<MemberResult>, now: int): (r: (State, Code))
    ensures r.0.workers == s.workers && r.0.epoch == s.epoch
  {
    if bid !in s.batches then (s, NotFound)
    else if !s.batches[bid].state.Sealed? then (s, InvalidState)
    else
      var boot := if worker in s.workers then s.workers[worker].boot else 0;
      var s1 := Start(Hand(s, bid, worker, boot), bid);
      var b := s1.batches[bid];
      Complete(p, s1, Completion(worker, boot, b.epoch, b.generation, bid, Successes(results)), now)
  }

  /** One member when the executor has failed: its current attempt is reported as a
      retryable failure, past the guard against finished attempts. */
  function FailOne(p: BatchPolicy, s: State, m: Id, error: U32, message: Bytes, now: int): (r: State)
    ensures r.workers == s.workers && r.epoch == s.epoch
  {
    if m !in s.requests || s.requests[m].current !in s.attempts then s else
    var aid := s.requests[m].current;
    ApplyOutcome(p, s, m, aid, MemberCompletion(m, aid, 1, [], error, message), now)
  }

  function FailAll(p: BatchPolicy, s: State, ms: seq<Id>, error: U32, message: Bytes, now: int): (r: State)
    ensures r.workers == s.workers && r.epoch == s.epoch
  {
    if ms == [] then s else
    var n := |ms| - 1;
    FailOne(p, FailAll(p, s, ms[..n], error, message, now), ms[n], error, message, now)
  }

  /** do_dispatch_and_run when the executor fails: the batch is left running. */
  function DispatchAndFail(p: BatchPolicy, s: State, bid: Id, worker: Id, error: U32, message: Bytes, now: int): (r: (State, Code))
    ensures r.0.workers == s.workers && r.0.epoch == s.epoch
  {
    if bid !in s.batches then (s, NotFound)
    else if !s.batches[bid].state.Sealed? then (s, InvalidState)
    else
      var boot := if worker in s.workers then s.workers[worker].boot else 0;
      var s1 := Start(Hand(s, bid, worker, boot), bid);
      (FailAll(p, s1, s1.batches[bid].members, error, message, now), ExecutorFailed)
  }

  // ---- retry, epochs and workers ----

  /** The state change of do_retry before the tick it ends with. */
  function Retry(p: BatchPolicy, s: State, rid: Id, now: int): (State, Code) {
    if rid !in s.requests then (s, NotFound) else
    var r := s.requests[rid];
    var number := if r.current in s.attempts then s.attempts[r.current].number else 0;
    if number >= p.maxAttempts then (s, InvalidState)
    else if Policy.Expired(r.meta.deadline, now) then (s, DeadlineExpired)
    else (Requeue(s, rid, number + 1), Ok)
  }

  function RollEpoch(s: State): State { s.(epoch := s.epoch + 1) }

  function RegisterWorker(s: State, worker: Id, boot: Id, maxBatch: U32): State {
    s.(workers := s.workers[worker := Worker(maxBatch, boot, true)])
  }
}
