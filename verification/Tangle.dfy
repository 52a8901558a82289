/** Core runs whose state the file cannot give back: after a merge for good, and while
    a retried request is in its next batch. */
module Tangle {
  import opened Types
  import opened Policy
  import opened Scheduler
  import opened Wide
  import opened Placement
  import opened Core
  import opened Trials
  import opened Ledger
  import opened Invariant
  import opened Network
  import opened WideRuns
  import opened Fences
  import opened Smuggling
  import opened Solo
  import opened Snapshot
  import Fairness
  import Identity
  import Persistence
  import StateFile

  /** The file saved now does not come back as it was saved. */
  ghost predicate Lost(s: State, o: Orders, ps: Persistence.Listing)
    requires Sized(s) && Walks(s, o)
  {
    var rt := Persistence.Runtime(TablesOf(s, o), ServedNames(s.served));
    StateFile.Countable(rt.tables) && StateFile.Load(StateFile.Save(rt.tables, ps)) != Some(rt)
  }

  ghost predicate LostHoweverSaved(s: State) {
    forall o, ps | Sized(s) && Walks(s, o) && StateFile.Enumerates(ps, ServedNames(s.served)) :: Lost(s, o, ps)
  }

  // ---- merging ----

  /** A merge that succeeds leaves a batch with a parent. */
  lemma MergeMarks(p: BatchPolicy, s: State, a: Id, b: Id)
    requires Merge(p, s, a, b).1.Ok?
    ensures !Unmerged(Merge(p, s, a, b).0.batches)
  {
    hide Rehome, CanMerge, Tally, DescriptorFrom;
    assert Merge(p, s, a, b).0.batches[a].parents != [];
  }

  /** From the first merge on, no state of the run comes back. */
  lemma MergedIsLost(p: BatchPolicy, run: seq<System>, steps: seq<Step>, i: nat, j: nat, o: Orders, ps: Persistence.Listing)
    requires IsRun(p, run, steps) && i <= j < |run| && !Unmerged(run[i].fabric.batches)
    requires Sized(run[j].fabric) && Walks(run[j].fabric, o) && StateFile.Enumerates(ps, ServedNames(run[j].fabric.served))
    ensures Lost(run[j].fabric, o, ps)
  {
    hide IsRun, IsWideRun, Inv, Sized, Walks, StateFile.Enumerates, ServedNames, TablesOf, StateFile.Load, StateFile.Save,
         Modest, Untangled, StateFile.Countable;
    CoreRunIsWide(p, run, steps);
    RunOnward(p, run, seq(|steps|, k requires 0 <= k < |steps| => WideStep.Plain(steps[k])), i, j);
    RunInv(p, run, steps, j);
    RestorableExact(p, run[j].fabric, o, ps);
  }

  // ---- a retried request ----

  /** A request that a partially completed batch lists is in another batch by now. */
  predicate MovedOn(s: State, b: Id, r: Id) {
    && b in s.batches && s.batches[b].state.PartiallyCompleted? && r in s.batches[b].members
    && r in s.requests && InBatch(s.requests[r].state) && s.requests[r].batch != b
  }

  lemma MovedOnIsLost(p: BatchPolicy, s: State, o: Orders, ps: Persistence.Listing, b: Id, r: Id)
    requires Inv(p, s) && Sized(s) && Walks(s, o) && StateFile.Enumerates(ps, ServedNames(s.served))
    requires MovedOn(s, b, r)
    ensures Lost(s, o, ps)
  {
    hide Inv, Sized, Walks, StateFile.Enumerates, ServedNames, TablesOf, StateFile.Load, StateFile.Save, Modest, Unmerged,
         StateFile.Countable;
    RestorableExact(p, s, o, ps);
    assert Housed(s.batches, r, s.requests[r]) by { AllHoused(p, s, r); }
    var c := s.requests[r].batch;
    assert !BatchTerminal(s.batches[c].state);
  }

  lemma AllHoused(p: BatchPolicy, s: State, r: Id)
    requires Inv(p, s) && r in s.requests
    ensures Housed(s.batches, r, s.requests[r])
  {
    hide WideInv, TrialInv, LedgerInv, Bounded, Homes, Placement.Distinct, Queued, FormingExact, Ordered;
  }

  // ---- a run that gets there ----

  const FAILURE := Outcome(1, 1)

  /** A retryable failure queues the request for its second attempt. */
  lemma Failed(s: State, m: Metadata, key: Key, now: int)
    requires Only(s, m, key, RequestState.Dispatched, 1) && InOne(s, 1, m, key, BatchState.Dispatched) && !Terminal(s.attempts[1].state)
    requires s.index == map[] && s.forming == map[]
    ensures var s' := ReportAll(Free(), s, [FAILURE], now);
            && Only(s', m, key, RequestState.Eligible, 2) && InLine(s', key, 2)
            && 1 in s'.batches && s'.batches[1].members == [1]
  {
    hide Fairness.NoteDone, Add64;
    var one := [FAILURE];
    var queue: seq<Id> := [];
    assert queue + [1] == [1];
    assert one[..0] == [];
    assert ReportAll(Free(), s, one[..0], now) == s;
    assert ReportAll(Free(), s, one, now) == ReportOne(Free(), s, FAILURE, now);
  }

  lemma FailOnce(s: State, m: Metadata, key: Key, now: int)
    requires Only(s, m, key, RequestState.Dispatched, 1) && InOne(s, 1, m, key, BatchState.Dispatched) && !Terminal(s.attempts[1].state)
    requires Joined(s) && s.index == map[] && s.forming == map[]
    ensures var s' := Complete(Free(), s, Report([FAILURE]), now).0;
            && Only(s', m, key, RequestState.Eligible, 2) && InLine(s', key, 2)
            && 1 in s'.batches && s'.batches[1].members == [1] && s'.batches[1].state.PartiallyCompleted?
  {
    hide ReportAll, Authority;
    ReportAccepted(s, m, key, [FAILURE]);
    Failed(s, m, key, now);
    assert !AllTerminal(ReportAll(Free(), s, [FAILURE], now).requests, [1]);
  }

  /** A worker registers after the first tick, is sent the batch and reports a
      failure. */
  function Steps(m: Metadata, now: int): seq<Step> {
    var key := Identity.KeyOf(m.descriptor);
    [Submission(m, now), TickStep(TheTick(key), 0, now), Registration(1, 1, 0), Dispatch(1, 1, 1),
     Reply(TheDispatch(m), Report([FAILURE])), Delivery(Report([FAILURE]), now), TickStep(TheTick(key), 0, now)]
  }

  ghost function Run(m: Metadata, now: int): (run: seq<System>)
    ensures |run| == 8
  {
    Play(Free(), Steps(m, now))
  }

  lemma RunStates(m: Metadata, now: int)
    ensures var run, steps, key, p := Run(m, now), Steps(m, now), Identity.KeyOf(m.descriptor), Free();
            && run[0] == System(INITIAL, {}, {})
            && (forall i :: 0 <= i < 7 ==> run[i + 1] == Next(p, run[i], steps[i]))
            && run[1].fabric == Submit(p, INITIAL, m, now) && run[2].fabric == Ticked(m, now)
            && run[3].fabric == RegisterWorker(Ticked(m, now), 1, 1, 0)
            && run[4].fabric == run[5].fabric == Sent(m, now)
            && run[6].fabric == Complete(p, Sent(m, now), Report([FAILURE]), now).0
            && run[7].fabric == Tick(p, run[6].fabric, TheTick(key), 0, now)
  {
    hide Submit, Tick, Complete, RegisterWorker, Identity.KeyOf, Play, ExecutionOf, PrepareDispatch;
    PlayFollows(Free(), Steps(m, now));
  }

  /** The dispatch and the reply are in flight when they are used. */
  lemma Messages(m: Metadata, now: int)
    requires var run := Run(m, now);
             PrepareDispatch(run[3].fabric, 1, 1, 1).1.Ok? && 1 in run[4].fabric.batches && ExecutionOf(run[4].fabric, 1) == TheDispatch(m)
    ensures TheDispatch(m) in Run(m, now)[4].dispatches && Report([FAILURE]) in Run(m, now)[5].reports
  {
    hide Submit, Tick, Complete, RegisterWorker, Identity.KeyOf, Run, ExecutionOf, PrepareDispatch;
    RunStates(m, now);
    var run, steps := Run(m, now), Steps(m, now);
    assert run[4] == Next(Free(), run[3], steps[3]) && run[5] == Next(Free(), run[4], steps[4]);
  }

  lemma TickEnabled(y: System, key: Key, now: int)
    requires Staffed(y.fabric.workers)
    ensures Enabled(Free(), y, TickStep(TheTick(key), 0, now))
  {
  }

  lemma ReplyEnabled(y: System, m: Metadata)
    requires TheDispatch(m) in y.dispatches
    ensures Enabled(Free(), y, Reply(TheDispatch(m), Report([FAILURE])))
  {
    assert WasSent(TheDispatch(m).members, FAILURE) by { assert TheDispatch(m).members[0].request == 1; }
  }

  lemma EachEnabled(m: Metadata, now: int, i: nat)
    requires i < 7 && Arrives(Run(m, now), m, now)
    ensures Enabled(Free(), Run(m, now)[i], Steps(m, now)[i])
  {
    hide Run, Identity.KeyOf, Enabled, RealTick;
    var run, key := Run(m, now), Identity.KeyOf(m.descriptor);
    TickEnabled(run[i], key, now);
    if i == 4 { ReplyEnabled(run[4], m); }
    if i != 1 && i != 4 && i != 6 { OthersEnabled(run[i], Steps(m, now)[i]); }
  }

  lemma OthersEnabled(y: System, step: Step)
    requires step.Submission? || step.Registration? || step.Dispatch? || (step.Delivery? && step.report in y.reports)
    ensures Enabled(Free(), y, step)
  {
  }

  /** The messages are in flight when they are used, the ticks visit what their loops
      visit, and in the end the request is in its second batch. */
  ghost predicate Arrives(run: seq<System>, m: Metadata, now: int) {
    var key := Identity.KeyOf(m.descriptor);
    && |run| == 8 && (forall i :: 0 <= i < 8 ==> Staffed(run[i].fabric.workers))
    && TheDispatch(m) in run[4].dispatches && Report([FAILURE]) in run[5].reports
    && RealTick(run[1].fabric, key, now) && RealTick(run[6].fabric, key, now)
    && var s := run[7].fabric;
       && Only(s, m, key, RequestState.Batched, 2) && InOne(s, 2, m, key, BatchState.Sealed)
       && 1 in s.batches && s.batches[1].members == [1] && s.batches[1].state.PartiallyCompleted?
  }

  lemma RunArrives(m: Metadata, now: int)
    requires Acceptable(m, now)
    ensures Arrives(Run(m, now), m, now)
  {
    hide Run, Next, Submit, Tick, Complete, PrepareDispatch, RegisterWorker, Identity.KeyOf, Acceptable, RealTick, ExecutionOf,
         Ticked, Sent;
    var run, key := Run(m, now), Identity.KeyOf(m.descriptor);
    RunStates(m, now);
    TickedShape(m, now);
    SentShape(m, now);
    Messages(m, now);
    SecondRound(m, now);
  }

  lemma SecondRound(m: Metadata, now: int)
    requires Acceptable(m, now)
    ensures var key, s6 := Identity.KeyOf(m.descriptor), Complete(Free(), Sent(m, now), Report([FAILURE]), now).0;
            var s := Tick(Free(), s6, TheTick(key), 0, now);
            && RealTick(s6, key, now) && Staffed(s6.workers)
            && Only(s, m, key, RequestState.Batched, 2) && InOne(s, 2, m, key, BatchState.Sealed)
            && 1 in s.batches && s.batches[1].members == [1] && s.batches[1].state.PartiallyCompleted?
  {
    hide Tick, Complete, RegisterWorker, PrepareDispatch, Identity.KeyOf, Acceptable, RealTick, ExecutionOf, Sent, Ticked;
    var key, s6 := Identity.KeyOf(m.descriptor), Complete(Free(), Sent(m, now), Report([FAILURE]), now).0;
    SentShape(m, now);
    FailOnce(Sent(m, now), m, key, now);
    TickIsReal(s6, m, key, 2, 2, now);
    TickOne(s6, m, key, 2, 2, now);
  }

  /** For every request with an identity that is not late: submit it, tick, dispatch
      it to a worker that reports a failure, tick. That is a core run, and its last
      state is lost. */
  lemma RetryIsLost(m: Metadata, now: int)
    requires Acceptable(m, now)
    ensures IsRun(Free(), Run(m, now), Steps(m, now)) && Arrives(Run(m, now), m, now)
    ensures LostHoweverSaved(Run(m, now)[7].fabric)
  {
    hide Run, Next, Identity.KeyOf, Acceptable, Inv, LostHoweverSaved, Enabled, RealTick, Ticked, Sent;
    var run := Run(m, now);
    RunArrives(m, now);
    RunStates(m, now);
    forall i | 0 <= i < 7 ensures Enabled(Free(), run[i], Steps(m, now)[i]) { EachEnabled(m, now, i); }
    assert IsRun(Free(), run, Steps(m, now));
    RunInv(Free(), run, Steps(m, now), 7);
    SecondIsLost(run[7].fabric, m, Identity.KeyOf(m.descriptor), Free());
  }

  /** The request is at home in its second batch and listed by its first. */
  lemma SecondIsLost(s: State, m: Metadata, key: Key, p: BatchPolicy)
    requires Inv(p, s) && Only(s, m, key, RequestState.Batched, 2) && InOne(s, 2, m, key, BatchState.Sealed)
    requires 1 in s.batches && s.batches[1].members == [1] && s.batches[1].state.PartiallyCompleted?
    ensures LostHoweverSaved(s)
  {
    hide Inv, Sized, Walks, Lost, StateFile.Enumerates, ServedNames;
    SecondHome(s, m, key, p);
    forall o, ps | Sized(s) && Walks(s, o) && StateFile.Enumerates(ps, ServedNames(s.served)) ensures Lost(s, o, ps) {
      MovedOnIsLost(p, s, o, ps, 1, 1);
    }
  }

  /** A sealed batch is the home of its members. */
  lemma SecondHome(s: State, m: Metadata, key: Key, p: BatchPolicy)
    requires Inv(p, s) && Only(s, m, key, RequestState.Batched, 2) && InOne(s, 2, m, key, BatchState.Sealed)
    ensures s.requests[1].batch == 2
  {
    hide WideInv, TrialInv, LedgerInv, Bounded, Housing, Placement.Distinct, Queued, FormingExact, Ordered;
    assert Home(s.requests, 2, s.batches[2]);
  }
}
