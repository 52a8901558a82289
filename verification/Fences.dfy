/** Epoch and boot fencing, on every run: splits, public retries, failing executors,
    driver reports and workers of any size included. */
module Fences {
  import opened Types
  import opened Policy
  import opened Scheduler
  import opened Wide
  import opened Network
  import Ticking
  import opened WideRuns

  /** What no step undoes. */
  ghost predicate Onward(s: State, s': State) { BatchesLast(s.batches, s'.batches) && s.epoch <= s'.epoch }

  lemma PlainFrame(p: BatchPolicy, s: State, step: Step)
    requires !step.EpochRoll? && !step.Registration?
    ensures After(p, s, step).epoch == s.epoch && After(p, s, step).workers == s.workers
  {
    hide Submit, Cancel, Expire, Tick, Seal, Merge, PrepareDispatch, Complete, DispatchAndRun;
  }

  lemma RetryFrame(p: BatchPolicy, s: State, r: Id, plan: Plan, limit: U32, now: int)
    ensures var s' := WideAfter(p, s, Retrying(r, plan, limit, now)); s'.epoch == s.epoch && s'.workers == s.workers
  {
    hide Tick, Requeue;
  }

  lemma OtherFrame(p: BatchPolicy, s: State, w: WideStep)
    ensures w.Plain? ==> WideAfter(p, s, w) == After(p, s, w.step)
    ensures w.Splitting? || w.Failing? || w.Driving? ==>
              WideAfter(p, s, w).epoch == s.epoch && WideAfter(p, s, w).workers == s.workers
  {
    hide After, Split, Tick, Retry, Complete, DispatchAndFail;
  }

  lemma MoveFrame(p: BatchPolicy, s: State)
    ensures After(p, s, EpochRoll) == RollEpoch(s)
    ensures forall w, boot, m :: After(p, s, Registration(w, boot, m)) == RegisterWorker(s, w, boot, m)
  {
    hide RollEpoch, RegisterWorker;
  }

  /** Only an epoch roll moves the epoch, and only a registration the worker table. */
  lemma StepFrame(p: BatchPolicy, s: State, w: WideStep)
    ensures WideAfter(p, s, w).epoch == s.epoch + (if w.Plain? && w.step.EpochRoll? then 1 else 0)
    ensures WideAfter(p, s, w).workers
            == if w.Plain? && w.step.Registration? then s.workers[w.step.worker := Worker(w.step.maxBatch, w.step.boot, true)] else s.workers
  {
    hide WideAfter, After;
    OtherFrame(p, s, w);
    MoveFrame(p, s);
    if w.Plain? && !w.step.EpochRoll? && !w.step.Registration? { PlainFrame(p, s, w.step); }
    if w.Retrying? { RetryFrame(p, s, w.request, w.plan, w.limit, w.now); }
  }

  lemma {:induction false} RunOnward(p: BatchPolicy, run: seq<System>, steps: seq<WideStep>, i: nat, j: nat)
    requires IsWideRun(p, run, steps) && i <= j < |run|
    ensures Onward(run[i].fabric, run[j].fabric)
    decreases j - i
  {
    hide WideEnabled, WideNext, WideSystem, BatchesLast;
    StampsRefl(run[i].fabric.batches);
    if i < j {
      RunOnward(p, run, steps, i, j - 1);
      assert run[(j - 1) + 1] == WideNext(p, run[j - 1], steps[j - 1]);
      WideRunInv(p, run, steps, j - 1);
      assert WideEnabled(run[j - 1], steps[j - 1]);
      OneStep(p, run[j - 1], steps[j - 1]);
      StampsTrans(run[i].fabric.batches, run[j - 1].fabric.batches, run[j].fabric.batches);
    }
  }

  lemma OneStep(p: BatchPolicy, y: System, w: WideStep)
    requires WideSystem(p, y) && WideEnabled(y, w)
    ensures Onward(y.fabric, WideNext(p, y, w).fabric)
  {
    hide WideAfter, WideSystem, BatchesLast, WideInv, PrepareDispatch;
    WideNextKept(p, y, w);
    StepFrame(p, y.fabric, w);
  }

  lemma StampsTrans(a: Batches, b: Batches, c: Batches)
    requires BatchesLast(a, b) && BatchesLast(b, c)
    ensures BatchesLast(a, c)
  {
  }

  /** After an epoch roll a report for a batch stamped earlier is answered with
      StaleEpoch at any later time, and only the rejection counter moves. */
  lemma EpochFence(p: BatchPolicy, run: seq<System>, steps: seq<WideStep>, i: nat, j: nat, c: Completion, now: int)
    requires IsWideRun(p, run, steps) && i <= j < |run| && c in run[j].reports
    requires c.batch in run[i].fabric.batches && run[i].fabric.batches[c.batch].epoch < run[i].fabric.epoch
    ensures var s := run[j].fabric;
            Complete(p, s, c, now) == (s.(stats := s.stats.(stale := s.stats.stale + 1)), StaleEpoch)
  {
    hide IsWideRun, WideInv, ReportAll, Close;
    WideRunInv(p, run, steps, j);
    RunOnward(p, run, steps, i, j);
    assert Bears(run[j].fabric.batches, c.batch, c.generation, c.epoch);
  }

  predicate Replaced(s: State, worker: Id, boot: Id) {
    worker in s.workers && s.workers[worker].boot != boot
  }

  /** Registering this boot id for this worker. */
  predicate Registers(w: WideStep, worker: Id, boot: Id) {
    w.Plain? && w.step.Registration? && w.step.worker == worker && w.step.boot == boot
  }

  lemma {:induction false} StaysReplaced(p: BatchPolicy, run: seq<System>, steps: seq<WideStep>, i: nat, j: nat, worker: Id, boot: Id)
    requires IsWideRun(p, run, steps) && i <= j < |run| && Replaced(run[i].fabric, worker, boot)
    requires forall k :: i <= k < j ==> !Registers(steps[k], worker, boot)
    ensures Replaced(run[j].fabric, worker, boot)
    decreases j - i
  {
    hide WideEnabled, WideAfter, PrepareDispatch;
    if i < j {
      StaysReplaced(p, run, steps, i, j - 1, worker, boot);
      assert run[(j - 1) + 1] == WideNext(p, run[j - 1], steps[j - 1]);
      StepFrame(p, run[j - 1].fabric, steps[j - 1]);
    }
  }

  /** A worker's replaced boot id has no authority until it is registered again. */
  lemma BootFence(p: BatchPolicy, run: seq<System>, steps: seq<WideStep>, i: nat, j: nat, c: Completion, now: int)
    requires IsWideRun(p, run, steps) && i <= j < |run| && Replaced(run[i].fabric, c.worker, c.boot)
    requires forall k :: i <= k < j ==> !Registers(steps[k], c.worker, c.boot)
    ensures var s := run[j].fabric;
            && Complete(p, s, c, now).0 == s.(stats := s.stats.(stale := s.stats.stale + 1))
            && (Complete(p, s, c, now).1.StaleEpoch? || Complete(p, s, c, now).1.StaleWorker?)
  {
    hide IsWideRun, ReportAll, Close;
    StaysReplaced(p, run, steps, i, j, c.worker, c.boot);
  }

  /** A core run is such a run, so both fences hold there as well. */
  lemma CoreRunIsWide(p: BatchPolicy, run: seq<System>, steps: seq<Step>)
    requires IsRun(p, run, steps)
    ensures IsWideRun(p, run, seq(|steps|, i requires 0 <= i < |steps| => WideStep.Plain(steps[i])))
  {
    hide After, PrepareDispatch, HonestReply, Ticking.Expirable, IsWorkerLimit, AllRoomy, Echoes, Work;
    var wide := seq(|steps|, i requires 0 <= i < |steps| => WideStep.Plain(steps[i]));
    forall i | 0 <= i < |wide| ensures WideEnabled(run[i], wide[i]) && run[i + 1] == WideNext(p, run[i], wide[i]) {
      assert Enabled(p, run[i], steps[i]) && run[i + 1] == Next(p, run[i], steps[i]);
      if steps[i].Dispatch? && PrepareDispatch(run[i].fabric, steps[i].batch, steps[i].worker, steps[i].boot).1.Ok? {
        DispatchedIsThere(p, run[i].fabric, steps[i]);
      }
    }
  }

  lemma DispatchedIsThere(p: BatchPolicy, s: State, step: Step)
    requires step.Dispatch? && PrepareDispatch(s, step.batch, step.worker, step.boot).1.Ok?
    ensures step.batch in After(p, s, step).batches
  {
    hide Advance;
  }
}
