/** The fabric in service: whatever is called on the object, in whatever order,
    is a run of the network, so all that is proved of runs holds of the object. */
module Service {
  import opened Types
  import opened Policy
  import opened Scheduler
  import opened Placement
  import opened Wide
  import opened Invariant
  import opened Ticking
  import opened TickTimes
  import opened Network
  import opened Engine
  import opened TickEnds
  import opened Wire
  import WireIO
  import Octets
  import Intake = Admission
  import Withdrawal = Cancellation
  import Handing = Handover
  import Judging = Reporting
  import Joins = Merging
  import Ripening = Sealing
  import Lapsing = Expiring

  lemma ExtendRun(p: BatchPolicy, run: seq<System>, steps: seq<Step>, step: Step)
    requires IsRun(p, run, steps) && Enabled(p, run[|steps|], step)
    ensures IsRun(p, run + [Next(p, run[|steps|], step)], steps + [step])
  {
    hide Enabled, Next;
    var run', steps' := run + [Next(p, run[|steps|], step)], steps + [step];
    forall i | 0 <= i < |steps'| ensures Enabled(p, run'[i], steps'[i]) && run'[i + 1] == Next(p, run'[i], steps'[i]) {
      if i < |steps| { assert run'[i] == run[i] && run'[i + 1] == run[i + 1] && steps'[i] == steps[i]; }
    }
  }

  lemma ScannedAreQueued(s: State, ids: seq<Id>, now: int)
    requires Queued(s.requests, s.index) && WaitingScan(s, ids, now)
    ensures Expirable(s.requests, ids)
  {
    forall r | r in ids ensures r in s.requests && (s.requests[r].inWaiting || Terminal(s.requests[r].state)) {
      var k :| k in s.index && r in s.index[k];
      assert BucketOk(s.requests, k, s.index[k]);
    }
  }

  /** What the tick's loops visit is what the timing results ask for. */
  lemma ObservedSuffices(p: BatchPolicy, s: State, plan: Plan, now: int)
    requires Inv(p, s) && Observed(p, s, plan, now)
    ensures Expirable(s.requests, plan.waiting) && FindsExpired(s, plan.placed, now) && VisitsAll(p, s, plan, now)
  {
    hide WideInv, Placed, Ordered, BucketOk, Waits, Expire, FormNew, ExpireWaiting, WaitingScan, Expirable, Inv;
    InvParts(p, s);
    ScannedAreQueued(s, plan.waiting, now);
    var s1 := ExpireWaiting(s, plan.waiting, now);
    ExpireWaitingBatches(s, plan.waiting, now);
    ExpireWaitingForming(s, plan.waiting, now);
    ExpireWaitingGood(p, s, plan.waiting, now);
    GoodMetas(p, s, s1);
    forall b, m | b in s.batches && s.batches[b].state.Forming? && m in s.batches[b].members
      ensures m in s.requests && Policy.Expired(s.requests[m].meta.deadline, now) ==> m in plan.placed
    {
      var k := s.batches[b].key;
      assert k in s1.forming && s1.forming[k] == b && m in s1.batches[b].members;
    }
  }

  lemma InvParts(p: BatchPolicy, s: State)
    requires Inv(p, s)
    ensures Queued(s.requests, s.index) && FormingExact(s.batches, s.forming)
  {
  }

  /** What an executor made of a dispatch: one output per member, or a failure. */
  datatype Executed = Done(outputs: seq<Bytes>) | Broke(code: U32, message: Bytes)

  /** The worker's side: decode a dispatch frame, run it, answer. Its answer echoes
      the stamps and the pairs it was sent. */
  method WorkerReply(worker: Id, boot: Id, frame: Bytes, result: Executed) returns (d: Option<Execution>, c: Completion)
    requires var d := DecodeDispatch(frame); result.Done? && d.Some? ==> |result.outputs| == |d.value.members|
    ensures d == DecodeDispatch(frame)
    ensures d.Some? ==> HonestReply(d.value, c) && c.worker == worker && c.boot == boot && |c.members| == |d.value.members|
    ensures d.Some? && result.Done? ==> forall i :: 0 <= i < |c.members| ==> c.members[i].status == 0 && c.members[i].result == result.outputs[i]
    ensures d.Some? && result.Broke? ==>
              forall i :: 0 <= i < |c.members| ==>
                c.members[i].status == 1 && c.members[i].errorCode == result.code && c.members[i].errorMessage == result.message
    ensures d.Some? ==> forall i :: 0 <= i < |c.members| ==> c.members[i].request == d.value.members[i].request && c.members[i].attempt == d.value.members[i].attempt
    ensures d.Some? && ExecutionFits(d.value) && ResultFits(result) && IsU64(worker) && IsU64(boot) ==> CompletionFits(c)
  {
    hide DecodeDispatch;
    d := WireIO.ReadDispatch(frame);
    c := Completion(worker, boot, 0, 0, 0, []);
    if d.None? { return; }
    var e := d.value;
    var ms: seq<MemberCompletion> := [];
    for i := 0 to |e.members|
      invariant |ms| == i
      invariant forall j :: 0 <= j < i ==> ms[j].request == e.members[j].request && ms[j].attempt == e.members[j].attempt
      invariant result.Done? ==> forall j :: 0 <= j < i ==> ms[j].status == 0 && ms[j].result == result.outputs[j]
      invariant result.Broke? ==>
                  forall j :: 0 <= j < i ==> ms[j].status == 1 && ms[j].errorCode == result.code && ms[j].errorMessage == result.message
      invariant forall j :: 0 <= j < i ==> |ms[j].result| == 0 || (result.Done? && ms[j].result == result.outputs[j])
      invariant forall j :: 0 <= j < i ==> |ms[j].errorMessage| == 0 || (result.Broke? && ms[j].errorMessage == result.message)
    {
      var m := e.members[i];
      var mc := if result.Done? then MemberCompletion(m.request, m.attempt, 0, result.outputs[i], 0, [])
                else MemberCompletion(m.request, m.attempt, 1, [], result.code, result.message);
      ms := ms + [mc];
    }
    EchoesItself(e.members, ms);
    if ExecutionFits(e) && ResultFits(result) { RepliesFit(e.members, ms, result); }
    c := Completion(worker, boot, e.epoch, e.generation, e.batch, ms);
  }

  /** The executor's strings are within the reader's limit. */
  predicate ResultFits(result: Executed) {
    match result
    case Done(outputs) => forall i :: 0 <= i < |outputs| ==> |outputs[i]| <= Octets.MAX_STRING
    case Broke(_, message) => |message| <= Octets.MAX_STRING
  }

  lemma RepliesFit(work: seq<MemberWork>, ms: seq<MemberCompletion>, result: Executed)
    requires |ms| == |work| && WorksFit(work) && ResultFits(result) && (result.Done? ==> |result.outputs| == |work|)
    requires forall j :: 0 <= j < |ms| ==> ms[j].request == work[j].request && ms[j].attempt == work[j].attempt
    requires forall j :: 0 <= j < |ms| ==> |ms[j].result| == 0 || (result.Done? && ms[j].result == result.outputs[j])
    requires forall j :: 0 <= j < |ms| ==> |ms[j].errorMessage| == 0 || (result.Broke? && ms[j].errorMessage == result.message)
    ensures OutcomesFit(ms)
  {
    forall m | m in ms ensures OutcomeFits(m) {
      var j :| 0 <= j < |ms| && ms[j] == m;
      assert WorkFits(work[j]);
    }
  }

  lemma EchoesItself(work: seq<MemberWork>, ms: seq<MemberCompletion>)
    requires |ms| == |work|
    requires forall j :: 0 <= j < |ms| ==> ms[j].request == work[j].request && ms[j].attempt == work[j].attempt
    ensures Echoes(work, ms)
  {
    forall i | 0 <= i < |ms| ensures WasSent(work, ms[i]) {
      assert work[i].request == ms[i].request;
    }
  }

  /** Of the batches that are forming in `s3`, the ripe ones have been sealed and the
      others are as they were. */
  ghost predicate SealsRipe(p: BatchPolicy, s3: State, s': State, now: int) {
    forall b | b in s3.batches && s3.batches[b].state.Forming? ::
      && b in s'.batches && (s'.batches[b].state.Forming? <==> !Ripening.Ripe(p, s3, b, now))
      && (s'.batches[b].state.Forming? ==> s'.batches[b] == s3.batches[b])
  }

  lemma TickSealsRipe(p: BatchPolicy, s: State, plan: Plan, limit: U32, now: int)
    requires Inv(p, s) && Expirable(s.requests, plan.waiting) && RoomyWorkers(p, limit) && Observed(p, s, plan, now)
    requires VisitsAll(p, s, plan, now)
    ensures SealsRipe(p, BeforeSealing(p, s, plan, now).0, Tick(p, s, plan, limit, now), now)
  {
    hide Inv, Expirable, RoomyWorkers, VisitsAll, Tick, BeforeSealing, Ripening.Ripe, WaitingScan, PlacedScan, MergeScan;
    var s3 := BeforeSealing(p, s, plan, now).0;
    forall b | b in s3.batches && s3.batches[b].state.Forming?
      ensures var s' := Tick(p, s, plan, limit, now);
              && b in s'.batches && (s'.batches[b].state.Forming? <==> !Ripening.Ripe(p, s3, b, now))
              && (s'.batches[b].state.Forming? ==> s'.batches[b] == s3.batches[b])
    {
      Ripening.TickSealsExactly(p, s, plan, limit, now, b);
    }
  }

  /** First the listed queued requests expire, then the listed members are cancelled. */
  ghost predicate Lapses(s: State, s': State, waiting: seq<Id>, placed: seq<Id>, now: int) {
    exists s1 :: Lapsing.Passed(s, s1, waiting, RequestState.Expired, 4, now) && Lapsing.Passed(s1, s', placed, RequestState.Cancelled, 3, now)
  }

  lemma ExpireLapses(p: BatchPolicy, s: State, waiting: seq<Id>, placed: seq<Id>, now: int)
    requires Inv(p, s) && Expirable(s.requests, waiting)
    requires WaitingScan(s, waiting, now) && PlacedScan(ExpireWaiting(s, waiting, now), placed, now)
    ensures Lapses(s, Scheduler.Expire(p, s, waiting, placed, now), waiting, placed, now)
  {
    hide Inv, Expirable, WaitingScan, PlacedScan, Scheduler.Expire, ExpireWaiting, Lapsing.Passed;
    Lapsing.ExpireExact(p, s, waiting, placed, now);
  }

  lemma Handed(p: BatchPolicy, s: State, bid: Id, worker: Id, boot: Id)
    requires Inv(p, s) && Scheduler.PrepareDispatch(s, bid, worker, boot).1.Ok?
    ensures var s' := Scheduler.PrepareDispatch(s, bid, worker, boot).0;
            bid in s'.batches && Handing.Carries(s, bid, worker, ExecutionOf(s', bid))
  {
    hide Inv, ExecutionOf, Handing.Carries;
    Handing.MessageCarries(p, s, bid, worker, boot);
  }

  /** A run that ends in `s`. */
  ghost predicate Ended(p: BatchPolicy, run: seq<System>, steps: seq<Step>, s: State) {
    |run| == |steps| + 1 && IsRun(p, run, steps) && run[|steps|].fabric == s
  }

  /** One more step of a run. */
  lemma Continues(p: BatchPolicy, run: seq<System>, steps: seq<Step>, s: State, step: Step)
    requires Ended(p, run, steps, s) && Enabled(p, run[|steps|], step)
    ensures Ended(p, run + [Next(p, run[|steps|], step)], steps + [step], After(p, s, step))
  {
    hide IsRun, Enabled, After, PrepareDispatch, ExecutionOf;
    ExtendRun(p, run, steps, step);
  }

  class Host {
    const policy: BatchPolicy
    const fabric: Fabric
    ghost var run: seq<System>
    ghost var steps: seq<Step>

    ghost predicate Valid()
      reads this, fabric
    {
      fabric.policy == policy && Ended(policy, run, steps, fabric.View())
    }

    constructor (policy: BatchPolicy)
      ensures Valid() && fresh(fabric) && steps == []
    {
      this.policy := policy;
      fabric := new Fabric(policy);
      run, steps := [System(INITIAL, {}, {})], [];
    }

    /** Everything proved of runs: the invariant of the object. */
    lemma Holds()
      requires Valid()
      ensures |run| == |steps| + 1 && SystemInv(policy, run[|steps|]) && Inv(policy, fabric.View())
    {
      hide IsRun, Inv;
      RunInv(policy, run, steps, |steps|);
    }

    /** Notes a step that the fabric is about to take. */
    ghost method Record(step: Step)
      requires Ended(policy, run, steps, fabric.View()) && Enabled(policy, run[|steps|], step)
      modifies this
      ensures Ended(policy, run, steps, After(policy, fabric.View(), step)) && steps == old(steps) + [step]
      ensures run == old(run) + [Next(policy, old(run[|steps|]), step)]
    {
      hide IsRun, Enabled, Next;
      Continues(policy, run, steps, fabric.View(), step);
      run, steps := run + [Next(policy, run[|steps|], step)], steps + [step];
    }

    method Submit(meta: Metadata, now: int) returns (rid: Id, a: Admission)
      requires Valid()
      modifies this, fabric
      ensures Valid() && steps == old(steps) + [Submission(meta, now)]
      ensures Intake.Answered(policy, old(fabric.View()), fabric.View(), meta, now, a)
    {
      hide IsRun, Scheduler.Submit, Admit, Intake.Answered;
      Intake.SubmitExact(policy, fabric.View(), meta, now);
      Record(Submission(meta, now));
      rid, a := fabric.Submit(meta, now);
    }

    method Cancel(rid: Id, now: int) returns (code: Code)
      requires Valid()
      modifies this, fabric
      ensures Valid() && steps == old(steps) + [Cancellation(rid, now)]
      ensures Withdrawal.Answered(policy, old(fabric.View()), fabric.View(), rid, now, code)
    {
      hide IsRun, Scheduler.Cancel, Inv, Withdrawal.Answered;
      Holds();
      Withdrawal.CancelExact(policy, fabric.View(), rid, now);
      Record(Cancellation(rid, now));
      code := fabric.Cancel(rid, now);
    }

    method Seal(bid: Id) returns (ok: bool)
      requires Valid()
      modifies this, fabric
      ensures Valid() && steps == old(steps) + [Sealing(bid)]
      ensures Joins.SealAnswered(old(fabric.View()), fabric.View(), bid, ok)
    {
      hide IsRun, Scheduler.Seal, Joins.SealAnswered;
      Joins.SealExact(fabric.View(), bid);
      Record(Sealing(bid));
      ok := fabric.Seal(bid);
    }

    method Merge(a: Id, b: Id) returns (code: Code)
      requires Valid()
      modifies this, fabric
      ensures Valid() && steps == old(steps) + [Merging(a, b)]
      ensures Joins.MergeAnswered(policy, old(fabric.View()), fabric.View(), a, b, code)
    {
      hide IsRun, Scheduler.Merge, Joins.MergeAnswered;
      Joins.MergeExact(policy, fabric.View(), a, b);
      Record(Merging(a, b));
      code := fabric.Merge(a, b);
    }

    /** A tick leaves no forming batch that should have been sealed, seals no other, and
        ends exactly the late requests that are queued or in a forming batch. */
    method Tick(now: int) returns (ghost plan: Plan, ghost limit: U32)
      requires Valid() && AllRoomy(policy, fabric.workers)
      modifies this, fabric
      ensures Valid() && steps == old(steps) + [TickStep(plan, limit, now)]
      ensures Prompt(policy, fabric.View(), now) && EndsExactly(old(fabric.View()), fabric.View(), now)
      ensures SealsRipe(policy, BeforeSealing(policy, old(fabric.View()), plan, now).0, fabric.View(), now)
    {
      hide EndsExactly, SealsRipe, BeforeSealing, IsRun, Inv, Scheduler.Tick, Observed, IsWorkerLimit, Expirable, FindsExpired, VisitsAll, AllRoomy, Prompt;
      ghost var s := fabric.View();
      Holds();
      plan, limit := fabric.Tick(now);
      ObservedSuffices(policy, s, plan, now);
      LimitIsRoomy(policy, s.workers, limit);
      TickIsPrompt(policy, s, plan, limit, now);
      TickEndsAll(policy, s, plan, limit, now);
      TickSealsRipe(policy, s, plan, limit, now);
      Continues(policy, run, steps, s, TickStep(plan, limit, now));
      run, steps := run + [Next(policy, run[|steps|], TickStep(plan, limit, now))], steps + [TickStep(plan, limit, now)];
    }

    /** The public expire: the same two passes, and nothing else. */
    method Expire(now: int) returns (ghost waiting: seq<Id>, ghost placed: seq<Id>)
      requires Valid()
      modifies this, fabric
      ensures Valid() && steps == old(steps) + [Expiry(waiting, placed, now)]
      ensures EndsExactly(old(fabric.View()), fabric.View(), now)
      ensures Lapses(old(fabric.View()), fabric.View(), waiting, placed, now)
    {
      hide EndsExactly, Lapses, IsRun, Inv, Scheduler.Expire, WaitingScan, PlacedScan, Expirable;
      ghost var s := fabric.View();
      Holds();
      waiting, placed := fabric.Expire(now);
      InvParts(policy, s);
      ScannedAreQueued(s, waiting, now);
      ExpireEndsExactly(policy, s, waiting, placed, now);
      ExpireLapses(policy, s, waiting, placed, now);
      Continues(policy, run, steps, s, Expiry(waiting, placed, now));
      run, steps := run + [Next(policy, run[|steps|], Expiry(waiting, placed, now))], steps + [Expiry(waiting, placed, now)];
    }

    /** prepare_dispatch: an accepted dispatch is a message in flight. */
    method PrepareDispatch(bid: Id, worker: Id, boot: Id) returns (code: Code, exec: Option<Execution>)
      requires Valid()
      modifies this, fabric
      ensures Valid() && steps == old(steps) + [Dispatch(bid, worker, boot)]
      ensures exec.Some? ==> exec.value in run[|steps|].dispatches
      ensures forall d :: d in old(run[|steps|].dispatches) ==> d in run[|steps|].dispatches
      ensures Handing.Answered(old(fabric.View()), fabric.View(), bid, worker, boot, code) && (exec.Some? <==> code.Ok?)
      ensures code.Ok? ==> Handing.Carries(old(fabric.View()), bid, worker, exec.value)
    {
      hide IsRun, Scheduler.PrepareDispatch, ExecutionOf, Inv, Handing.Answered, Handing.Carries;
      Holds();
      ghost var s := fabric.View();
      Handing.DispatchExact(s, bid, worker, boot);
      if Scheduler.PrepareDispatch(s, bid, worker, boot).1.Ok? { Handed(policy, s, bid, worker, boot); }
      Record(Dispatch(bid, worker, boot));
      code, exec := fabric.PrepareDispatch(bid, worker, boot);
    }

    /** The coordinator offers each batch that a tick sealed to one worker. */
    method DispatchAll(ids: seq<Id>, worker: Id, boot: Id) returns (sent: seq<Execution>)
      requires Valid()
      modifies this, fabric
      ensures Valid() && |steps| == old(|steps|) + |ids|
      ensures forall i :: 0 <= i < |ids| ==> steps[old(|steps|) + i] == Dispatch(ids[i], worker, boot)
      ensures forall e :: e in sent ==> e in run[|steps|].dispatches
    {
      hide IsRun;
      sent := [];
      for k := 0 to |ids|
        invariant Valid() && |steps| == old(|steps|) + k
        invariant forall i :: 0 <= i < k ==> steps[old(|steps|) + i] == Dispatch(ids[i], worker, boot)
        invariant forall e :: e in sent ==> e in run[|steps|].dispatches
      {
        var code, exec := PrepareDispatch(ids[k], worker, boot);
        if exec.Some? { sent := sent + [exec.value]; }
      }
    }

    /** A worker answers a dispatch that is in flight. */
    ghost method Answer(d: Execution, c: Completion)
      requires Valid() && d in run[|steps|].dispatches && HonestReply(d, c)
      modifies this
      ensures Valid() && steps == old(steps) + [Reply(d, c)] && c in run[|steps|].reports
    {
      hide IsRun, HonestReply;
      Record(Reply(d, c));
    }

    /** complete, for a report that is in flight. */
    method Complete(c: Completion, now: int) returns (code: Code)
      requires Valid() && c in run[|steps|].reports
      modifies this, fabric
      ensures Valid() && steps == old(steps) + [Delivery(c, now)]
      ensures Judging.Answered(policy, old(fabric.View()), fabric.View(), c, now, code)
    {
      hide IsRun, Scheduler.Complete, Judging.Answered;
      Judging.CompleteExact(policy, fabric.View(), c, now);
      Record(Delivery(c, now));
      code := fabric.Complete(c, now);
    }

    /** A dispatch goes to its worker and the answer comes back, both as frames: what
        is delivered in the end is an honest reply to that dispatch. */
    method Exchange(e: Execution, worker: Id, boot: Id, result: Executed, now: int) returns (code: Code, ghost c: Completion)
      requires Valid() && e in run[|steps|].dispatches && ExecutionFits(e)
      requires ResultFits(result) && (result.Done? ==> |result.outputs| == |e.members|) && IsU64(worker) && IsU64(boot)
      modifies this, fabric
      ensures Valid() && HonestReply(e, c) && c.worker == worker && c.boot == boot && |c.members| == |e.members|
      ensures steps == old(steps) + [Reply(e, c), Delivery(c, now)]
    {
      hide IsRun, HonestReply, ExecutionFits, CompletionFits, ResultFits, PutExecution, DecodeDispatch, DecodeComplete;
      FitIsSized(e);
      DispatchExact(EncodeDispatch(e), e);
      var sent := WireIO.WriteDispatch(e);
      var d, reply := WorkerReply(worker, boot, sent, result);
      c := reply;
      Answer(e, reply);
      CompletionFitIsSized(reply);
      CompleteExact(EncodeComplete(reply), reply);
      var answer := WireIO.WriteComplete(reply);
      var received := WireIO.ReadComplete(answer);
      code := Complete(received.value, now);
    }

    /** dispatch_and_run with an executor that answers for members only. */
    method DispatchAndRun(bid: Id, worker: Id, results: seq<MemberResult>, now: int) returns (code: Code)
      requires Valid() && (bid in fabric.batches ==> Echoes(Work(fabric.requests, fabric.batches[bid].members), Successes(results)))
      modifies this, fabric
      ensures Valid() && steps == old(steps) + [LocalRun(bid, worker, results, now)]
    {
      hide IsRun, Scheduler.DispatchAndRun, Echoes, Work, Successes;
      Record(LocalRun(bid, worker, results, now));
      code := fabric.DispatchAndRun(bid, worker, results, now);
    }

    method RollEpoch()
      requires Valid()
      modifies this, fabric
      ensures Valid() && steps == old(steps) + [EpochRoll]
    {
      hide IsRun;
      Record(EpochRoll);
      fabric.RollEpoch();
    }

    method RegisterWorker(worker: Id, boot: Id, maxBatch: U32)
      requires Valid()
      modifies this, fabric
      ensures Valid() && steps == old(steps) + [Registration(worker, boot, maxBatch)]
    {
      hide IsRun;
      Record(Registration(worker, boot, maxBatch));
      fabric.RegisterWorker(worker, boot, maxBatch);
    }
  }

  lemma FitIsSized(e: Execution)
    requires ExecutionFits(e)
    ensures ExecutionSized(e)
  {
  }

  lemma CompletionFitIsSized(c: Completion)
    requires CompletionFits(c)
    ensures CompletionSized(c)
  {
  }

  /** No forming batch has waited as long as a limit that applies to it. */
  predicate Prompt(p: BatchPolicy, s: State, now: int) {
    forall b | b in s.batches && s.batches[b].state.Forming? :: WaitsInTime(p, s.requests, s.batches[b], now)
  }

  predicate WaitsInTime(p: BatchPolicy, rs: Requests, b: Batch, now: int) {
    && (0 < p.globalMaxWait < NO_DEADLINE ==> now - b.formed < p.globalMaxWait)
    && (forall m :: m in b.members && m in rs ==> InTime(p, rs[m].meta, now, now - b.formed))
  }

  lemma TickIsPrompt(p: BatchPolicy, s: State, plan: Plan, limit: U32, now: int)
    requires Inv(p, s) && Expirable(s.requests, plan.waiting) && RoomyWorkers(p, limit) && VisitsAll(p, s, plan, now)
    ensures Prompt(p, Tick(p, s, plan, limit, now), now)
  {
    hide Inv, Expirable, RoomyWorkers, VisitsAll, Tick, InTime;
    var s' := Tick(p, s, plan, limit, now);
    forall b | b in s'.batches && s'.batches[b].state.Forming? ensures WaitsInTime(p, s'.requests, s'.batches[b], now) {
      NoFormingIsOverdue(p, s, plan, limit, now, b);
    }
  }
}
