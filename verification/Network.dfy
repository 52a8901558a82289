/** The scheduler with workers around it. Messages once sent stay in flight, so a
    run may deliver them late, in any order, many times or never. A worker's reply
    echoes the stamps and the request/attempt pairs of a dispatch. */
module Network {
  import opened Types
  import opened Policy
  import opened Scheduler
  import opened Wide
  import opened Core
  import opened Trials
  import opened Ledger
  import opened Evolution
  import opened Invariant
  import opened Ticking

  datatype System = System(fabric: State, dispatches: set<Execution>, reports: set<Completion>)

  datatype Step =
    | Submission(meta: Metadata, now: int)
    | Cancellation(request: Id, now: int)
    | Expiry(waiting: seq<Id>, placed: seq<Id>, now: int)
    | TickStep(plan: Plan, limit: U32, now: int)
    | Sealing(batch: Id)
    | Merging(a: Id, b: Id)
    | Dispatch(batch: Id, worker: Id, boot: Id)
    | Reply(dispatch: Execution, report: Completion)
    | Delivery(report: Completion, now: int)
    | LocalRun(batch: Id, worker: Id, results: seq<MemberResult>, now: int)
    | EpochRoll
    | Registration(worker: Id, boot: Id, maxBatch: U32)

  predicate WasSent(work: seq<MemberWork>, mc: MemberCompletion) {
    exists j :: 0 <= j < |work| && work[j].request == mc.request && work[j].attempt == mc.attempt
  }

  /** Each reported pair was dispatched. Nothing is asked of the statuses. */
  predicate Echoes(work: seq<MemberWork>, ms: seq<MemberCompletion>) {
    forall i :: 0 <= i < |ms| ==> WasSent(work, ms[i])
  }

  /** The worker's reply rule. */
  predicate HonestReply(d: Execution, c: Completion) {
    c.epoch == d.epoch && c.generation == d.generation && c.batch == d.batch && Echoes(d.members, c.members)
  }

  /** Every live worker takes at least as many members as the budget allows. */
  predicate AllRoomy(p: BatchPolicy, ws: map<Id, Worker>) {
    forall w :: w in ws && ws[w].live ==> RoomyWorkers(p, ws[w].maxBatch)
  }

  /** What the scheduler does in a step that is not a worker's. */
  ghost function After(p: BatchPolicy, s: State, step: Step): State {
    match step
    case Submission(meta, now) => Submit(p, s, meta, now)
    case Cancellation(r, now) => Cancel(p, s, r, now).0
    case Expiry(waiting, placed, now) => Expire(p, s, waiting, placed, now)
    case TickStep(plan, limit, now) => Tick(p, s, plan, limit, now)
    case Sealing(b) => Seal(s, b).0
    case Merging(a, b) => Merge(p, s, a, b).0
    case Dispatch(b, w, boot) => PrepareDispatch(s, b, w, boot).0
    case Reply(_, _) => s
    case Delivery(c, now) => Complete(p, s, c, now).0
    case LocalRun(b, w, results, now) => DispatchAndRun(p, s, b, w, results, now).0
    case EpochRoll => RollEpoch(s)
    case Registration(w, boot, maxBatch) => RegisterWorker(s, w, boot, maxBatch)
  }

  /** When a step of a core run may be taken. */
  ghost predicate Enabled(p: BatchPolicy, y: System, step: Step) {
    var s := y.fabric;
    match step
    case Expiry(waiting, _, _) => Expirable(s.requests, waiting)
    case TickStep(plan, limit, _) =>
      Expirable(s.requests, plan.waiting) && IsWorkerLimit(s.workers, limit) && AllRoomy(p, s.workers)
    case Reply(d, c) => d in y.dispatches && HonestReply(d, c)
    case Delivery(c, _) => c in y.reports
    case LocalRun(b, _, results, _) => b in s.batches ==> Echoes(Work(s.requests, s.batches[b].members), Successes(results))
    case _ => true
  }

  /** One step: the scheduler moves, and a successful dispatch or a reply puts a
      message in flight. */
  ghost function Next(p: BatchPolicy, y: System, step: Step): System {
    var s' := After(p, y.fabric, step);
    System(s',
           if step.Dispatch? && PrepareDispatch(y.fabric, step.batch, step.worker, step.boot).1.Ok?
           then y.dispatches + {ExecutionOf(s', step.batch)} else y.dispatches,
           if step.Reply? then y.reports + {step.report} else y.reports)
  }

  ghost predicate IsRun(p: BatchPolicy, run: seq<System>, steps: seq<Step>) {
    && |run| == |steps| + 1
    && run[0] == System(INITIAL, {}, {})
    && forall i :: 0 <= i < |steps| ==> Enabled(p, run[i], steps[i]) && run[i + 1] == Next(p, run[i], steps[i])
  }

  /** The states that these steps lead through. */
  ghost function Play(p: BatchPolicy, steps: seq<Step>): (run: seq<System>)
    ensures |run| == |steps| + 1
  {
    if steps == [] then [System(INITIAL, {}, {})] else
    var n := |steps| - 1;
    var run := Play(p, steps[..n]);
    run + [Next(p, run[n], steps[n])]
  }

  lemma {:induction false} PlayFollows(p: BatchPolicy, steps: seq<Step>)
    ensures var run := Play(p, steps);
            && run[0] == System(INITIAL, {}, {})
            && forall i :: 0 <= i < |steps| ==> run[i + 1] == Next(p, run[i], steps[i])
  {
    hide Next;
    if steps != [] {
      var n := |steps| - 1;
      PlayFollows(p, steps[..n]);
      var run, part := Play(p, steps), Play(p, steps[..n]);
      assert run == part + [Next(p, part[n], steps[n])];
      forall i | 0 <= i < |steps| ensures run[i + 1] == Next(p, run[i], steps[i]) {
        assert run[i] == part[i] && (i < n ==> run[i + 1] == part[i + 1] && steps[..n][i] == steps[i]);
      }
    }
  }

  // ---- the network invariant ----

  /** A pair that a dispatch may name: a member with an attempt of its own. */
  predicate Pair(s: State, b: Batch, r: Id, a: Id) {
    r in b.members && r in s.requests && a in s.requests[r].attempts
  }

  /** A message agrees with the batch it names, which is past sealing. */
  predicate Stamped(s: State, batch: Id, generation: Id, epoch: Id) {
    && batch in s.batches && Progress(s.batches[batch].state) >= 2
    && s.batches[batch].generation == generation && s.batches[batch].epoch == epoch
  }

  predicate DispatchOk(s: State, d: Execution) {
    && Stamped(s, d.batch, d.generation, d.epoch)
    && forall i :: 0 <= i < |d.members| ==> Pair(s, s.batches[d.batch], d.members[i].request, d.members[i].attempt)
  }

  predicate ReportOk(s: State, c: Completion) {
    && Stamped(s, c.batch, c.generation, c.epoch)
    && forall i :: 0 <= i < |c.members| ==> Pair(s, s.batches[c.batch], c.members[i].request, c.members[i].attempt)
  }

  ghost predicate SystemInv(p: BatchPolicy, y: System) {
    && Inv(p, y.fabric)
    && (forall d :: d in y.dispatches ==> DispatchOk(y.fabric, d))
    && (forall c :: c in y.reports ==> ReportOk(y.fabric, c))
  }

  lemma PairStable(p: BatchPolicy, s: State, s': State, bid: Id, r: Id, a: Id)
    requires Evolves(p, s, s') && bid in s.batches && Progress(s.batches[bid].state) >= 2
    requires Pair(s, s.batches[bid], r, a)
    ensures bid in s'.batches && Pair(s', s'.batches[bid], r, a)
  {
    hide AttemptsEvolve;
    assert BatchEvolves(s.batches[bid], s'.batches[bid]);
    assert RequestEvolves(p, s.requests[r], s'.requests[r]);
  }

  lemma StampedStable(p: BatchPolicy, s: State, s': State, batch: Id, generation: Id, epoch: Id)
    requires Evolves(p, s, s') && Stamped(s, batch, generation, epoch)
    ensures Stamped(s', batch, generation, epoch)
  {
    hide AttemptsEvolve, RequestsEvolve;
    assert BatchEvolves(s.batches[batch], s'.batches[batch]);
  }

  lemma DispatchStable(p: BatchPolicy, s: State, s': State, d: Execution)
    requires Evolves(p, s, s') && DispatchOk(s, d)
    ensures DispatchOk(s', d)
  {
    hide Evolves, Pair;
    StampedStable(p, s, s', d.batch, d.generation, d.epoch);
    forall i | 0 <= i < |d.members| ensures Pair(s', s'.batches[d.batch], d.members[i].request, d.members[i].attempt) {
      PairStable(p, s, s', d.batch, d.members[i].request, d.members[i].attempt);
    }
  }

  lemma ReportStable(p: BatchPolicy, s: State, s': State, c: Completion)
    requires Evolves(p, s, s') && ReportOk(s, c)
    ensures ReportOk(s', c)
  {
    hide Evolves, Pair;
    StampedStable(p, s, s', c.batch, c.generation, c.epoch);
    forall i | 0 <= i < |c.members| ensures Pair(s', s'.batches[c.batch], c.members[i].request, c.members[i].attempt) {
      PairStable(p, s, s', c.batch, c.members[i].request, c.members[i].attempt);
    }
  }

  // ---- what a dispatch carries ----

  lemma {:induction false} WorkPairs(rs: Requests, members: seq<Id>, i: nat)
    requires i < |Work(rs, members)|
    ensures var w := Work(rs, members)[i];
            w.request in members && w.request in rs && w.attempt == rs[w.request].current
  {
    var n := |members| - 1;
    var w := Work(rs, members[..n]);
    if i < |w| {
      WorkPairs(rs, members[..n], i);
      assert members[..n][..] <= members;
    } else {
      assert members[n] in members;
    }
  }

  lemma CurrentPair(p: BatchPolicy, s: State, b: Batch, r: Id)
    requires TrialInv(p, s) && r in b.members && r in s.requests
    ensures Pair(s, b, r, s.requests[r].current)
  {
    hide Owned;
    assert Tried(p, s.attempts, s.requests[r]);
  }

  lemma SentOk(p: BatchPolicy, s: State, bid: Id)
    requires Inv(p, s) && bid in s.batches && Progress(s.batches[bid].state) >= 2
    ensures DispatchOk(s, ExecutionOf(s, bid))
  {
    hide WideInv, CoreBut, TrialInv, LedgerInv, Pair, Work, Bounded;
    var d, b := ExecutionOf(s, bid), s.batches[bid];
    forall i | 0 <= i < |d.members| ensures Pair(s, b, d.members[i].request, d.members[i].attempt) {
      WorkPairs(s.requests, b.members, i);
      CurrentPair(p, s, b, d.members[i].request);
    }
  }

  lemma EchoOk(s: State, d: Execution, c: Completion)
    requires DispatchOk(s, d) && HonestReply(d, c)
    ensures ReportOk(s, c)
  {
    hide Pair;
    forall i | 0 <= i < |c.members| ensures Pair(s, s.batches[c.batch], c.members[i].request, c.members[i].attempt) {
      assert WasSent(d.members, c.members[i]);
      var j :| 0 <= j < |d.members| && d.members[j].request == c.members[i].request && d.members[j].attempt == c.members[i].attempt;
      assert Pair(s, s.batches[d.batch], d.members[j].request, d.members[j].attempt);
    }
  }

  /** In flight means honest: the report names members of its batch with attempts
      made before it. */
  lemma ReportIsHonest(p: BatchPolicy, s: State, c: Completion)
    requires Inv(p, s) && ReportOk(s, c)
    ensures Honest(s.batches[c.batch].members, s.nextAttempt, c.members)
  {
    hide CoreBut, Owned, LedgerInv, Sound, Keyed, IndexKnown, FormingKnown, Bounded;
    forall i | 0 <= i < |c.members|
      ensures c.members[i].request in s.batches[c.batch].members && c.members[i].attempt < s.nextAttempt
    {
      assert Pair(s, s.batches[c.batch], c.members[i].request, c.members[i].attempt);
      assert Tried(p, s.attempts, s.requests[c.members[i].request]);
      TriedKnown(p, s.attempts, s.requests[c.members[i].request], c.members[i].attempt);
    }
  }

  // ---- every step ----

  lemma LimitIsRoomy(p: BatchPolicy, ws: map<Id, Worker>, limit: U32)
    requires IsWorkerLimit(ws, limit) && AllRoomy(p, ws)
    ensures RoomyWorkers(p, limit)
  {
    if limit != 0 {
      var w :| w in ws && ws[w].live && ws[w].maxBatch == limit;
      assert RoomyWorkers(p, ws[w].maxBatch);
    }
  }

  lemma EchoIsHonest(p: BatchPolicy, s: State, bid: Id, outputs: seq<MemberCompletion>)
    requires Inv(p, s) && bid in s.batches && Echoes(Work(s.requests, s.batches[bid].members), outputs)
    ensures Honest(s.batches[bid].members, s.nextAttempt, outputs)
  {
    hide CoreBut, Owned, LedgerInv, Sound, Keyed, IndexKnown, FormingKnown, Work, Bounded;
    var work := Work(s.requests, s.batches[bid].members);
    forall i | 0 <= i < |outputs|
      ensures outputs[i].request in s.batches[bid].members && outputs[i].attempt < s.nextAttempt
    {
      assert WasSent(work, outputs[i]);
      var j :| 0 <= j < |work| && work[j].request == outputs[i].request && work[j].attempt == outputs[i].attempt;
      WorkPairs(s.requests, s.batches[bid].members, j);
      assert Tried(p, s.attempts, s.requests[work[j].request]);
      TriedCurrent(p, s.attempts, s.requests[work[j].request]);
    }
  }

  lemma LocalRunGood(p: BatchPolicy, s: State, bid: Id, worker: Id, results: seq<MemberResult>, now: int)
    requires Inv(p, s)
    requires bid in s.batches ==> Echoes(Work(s.requests, s.batches[bid].members), Successes(results))
    ensures Good(p, s, DispatchAndRun(p, s, bid, worker, results, now).0)
  {
    hide Inv, Evolves, Advance, Complete, Work, Honest, Echoes, Successes;
    GoodRefl(p, s);
    if bid in s.batches && s.batches[bid].state.Sealed? {
      var boot := if worker in s.workers then s.workers[worker].boot else 0;
      var s1 := Hand(s, bid, worker, boot);
      HandGood(p, s, bid, worker, boot);
      var s2 := Start(s1, bid);
      StartGood(p, s1, bid);
      GoodTrans(p, s, s1, s2);
      EchoIsHonest(p, s, bid, Successes(results));
      var b := s2.batches[bid];
      var c := Completion(worker, boot, b.epoch, b.generation, bid, Successes(results));
      CompleteGood(p, s2, c, now);
      GoodTrans(p, s, s2, Complete(p, s2, c, now).0);
    }
  }

  lemma DispatchGood(p: BatchPolicy, s: State, bid: Id, worker: Id, boot: Id)
    requires Inv(p, s)
    ensures Good(p, s, PrepareDispatch(s, bid, worker, boot).0)
    ensures PrepareDispatch(s, bid, worker, boot).1.Ok? ==>
              DispatchOk(PrepareDispatch(s, bid, worker, boot).0, ExecutionOf(PrepareDispatch(s, bid, worker, boot).0, bid))
  {
    hide Inv, Evolves, Advance, DispatchOk, ExecutionOf;
    GoodRefl(p, s);
    if PrepareDispatch(s, bid, worker, boot).1.Ok? {
      HandGood(p, s, bid, worker, boot);
      SentOk(p, Hand(s, bid, worker, boot), bid);
    }
  }

  lemma DeliveryGood(p: BatchPolicy, s: State, c: Completion, now: int)
    requires Inv(p, s) && ReportOk(s, c)
    ensures Good(p, s, Complete(p, s, c, now).0)
  {
    hide Inv, Evolves, Complete, Honest;
    ReportIsHonest(p, s, c);
    CompleteGood(p, s, c, now);
  }

  lemma AfterGood(p: BatchPolicy, y: System, step: Step)
    requires SystemInv(p, y) && Enabled(p, y, step)
    ensures Good(p, y.fabric, After(p, y.fabric, step))
  {
    hide Inv, Evolves, DispatchOk, ReportOk, Expirable, IsWorkerLimit, AllRoomy, Echoes, HonestReply,
         Submit, Cancel, Expire, Tick, Seal, Merge, PrepareDispatch, Complete, DispatchAndRun, RollEpoch, RegisterWorker;
    var s := y.fabric;
    match step
    case Submission(meta, now) => SubmitGood(p, s, meta, now);
    case Cancellation(r, now) => CancelGood(p, s, r, now);
    case Expiry(waiting, placed, now) => ExpireGood(p, s, waiting, placed, now);
    case TickStep(plan, limit, now) => LimitIsRoomy(p, s.workers, limit); TickGood(p, s, plan, limit, now);
    case Sealing(b) => SealGood(p, s, b);
    case Merging(a, b) => MergeGood(p, s, a, b);
    case Dispatch(b, w, boot) => DispatchGood(p, s, b, w, boot);
    case Reply(_, _) => GoodRefl(p, s);
    case Delivery(c, now) => DeliveryGood(p, s, c, now);
    case LocalRun(b, w, results, now) => LocalRunGood(p, s, b, w, results, now);
    case EpochRoll => RollEpochGood(p, s);
    case Registration(w, boot, maxBatch) => RegisterWorkerGood(p, s, w, boot, maxBatch);
  }

  lemma NextGood(p: BatchPolicy, y: System, step: Step)
    requires SystemInv(p, y) && Enabled(p, y, step)
    ensures SystemInv(p, Next(p, y, step)) && Evolves(p, y.fabric, Next(p, y, step).fabric)
  {
    hide Inv, Evolves, DispatchOk, ReportOk, After, ExecutionOf, PrepareDispatch, HonestReply, Expirable, IsWorkerLimit, AllRoomy, Echoes;
    AfterGood(p, y, step);
    var s, y' := y.fabric, Next(p, y, step);
    forall d | d in y'.dispatches ensures DispatchOk(y'.fabric, d) {
      if d in y.dispatches { DispatchStable(p, s, y'.fabric, d); }
      else { NewDispatchOk(p, y, step); }
    }
    forall c | c in y'.reports ensures ReportOk(y'.fabric, c) {
      if c in y.reports { ReportStable(p, s, y'.fabric, c); }
      else { NewReportOk(p, y, step); }
    }
  }

  lemma NewDispatchOk(p: BatchPolicy, y: System, step: Step)
    requires SystemInv(p, y) && step.Dispatch? && PrepareDispatch(y.fabric, step.batch, step.worker, step.boot).1.Ok?
    ensures var s' := After(p, y.fabric, step);
            step.batch in s'.batches && DispatchOk(s', ExecutionOf(s', step.batch))
  {
    hide Inv, DispatchOk, ReportOk, ExecutionOf, Advance;
    DispatchGood(p, y.fabric, step.batch, step.worker, step.boot);
  }

  lemma NewReportOk(p: BatchPolicy, y: System, step: Step)
    requires SystemInv(p, y) && step.Reply? && Enabled(p, y, step)
    ensures ReportOk(After(p, y.fabric, step), step.report)
  {
    hide Inv, DispatchOk, ReportOk, HonestReply;
    EchoOk(y.fabric, step.dispatch, step.report);
  }

  /** Every state of every core run satisfies the invariant. */
  lemma {:induction false} RunInv(p: BatchPolicy, run: seq<System>, steps: seq<Step>, i: nat)
    requires IsRun(p, run, steps) && i < |run|
    ensures SystemInv(p, run[i])
  {
    hide Enabled, Next, Inv;
    if i == 0 {
      InitialInv(p);
    } else {
      RunInv(p, run, steps, i - 1);
      assert Enabled(p, run[i - 1], steps[i - 1]) && run[(i - 1) + 1] == Next(p, run[i - 1], steps[i - 1]);
      NextGood(p, run[i - 1], steps[i - 1]);
    }
  }

  /** Later states never undo what earlier ones settled. */
  lemma {:induction false} RunEvolves(p: BatchPolicy, run: seq<System>, steps: seq<Step>, i: nat, j: nat)
    requires IsRun(p, run, steps) && i <= j < |run|
    ensures Evolves(p, run[i].fabric, run[j].fabric)
    decreases j - i
  {
    hide Enabled, Next, Evolves, SystemInv;
    if i == j {
      EvolvesRefl(p, run[i].fabric);
    } else {
      RunEvolves(p, run, steps, i, j - 1);
      RunInv(p, run, steps, j - 1);
      assert Enabled(p, run[j - 1], steps[j - 1]) && run[(j - 1) + 1] == Next(p, run[j - 1], steps[j - 1]);
      NextGood(p, run[j - 1], steps[j - 1]);
      EvolvesTrans(p, run[i].fabric, run[j - 1].fabric, run[j].fabric);
    }
  }
}
