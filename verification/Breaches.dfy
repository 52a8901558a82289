/** Runs in which a driver's report completes a request of no batch, and in which a
    failing executor revives a cancelled request. */
module Breaches {
  import opened Types
  import opened Scheduler
  import opened Engine
  import opened Network
  import opened WideRuns
  import opened Ledger
  import opened Smuggling
  import opened Solo
  import Departures
  import Fairness
  import Identity

  // ---- a report on a stranger ----

  /** It names batch 1 and the request that was submitted after the dispatch. */
  const FOREIGN := Report([MemberCompletion(2, 2, 0, [], 0, [])])

  function ForeignSteps(m: Metadata, q: Metadata, now: int): seq<WideStep> {
    [WideStep.Plain(Submission(m, now)), WideStep.Plain(TickStep(TheTick(Identity.KeyOf(m.descriptor)), 0, now)),
     WideStep.Plain(Registration(1, 1, 0)), WideStep.Plain(Dispatch(1, 1, 1)), WideStep.Plain(Submission(q, now)),
     Driving(FOREIGN, now)]
  }

  ghost function ForeignRun(m: Metadata, q: Metadata, now: int): (run: seq<System>)
    ensures |run| == 7
  {
    WidePlay(Free(), ForeignSteps(m, q, now))
  }

  lemma ForeignStates(m: Metadata, q: Metadata, now: int)
    ensures var run, s5 := ForeignRun(m, q, now), Submit(Free(), Sent(m, now), q, now);
            && IsWideRun(Free(), run, ForeignSteps(m, q, now))
            && run[1].fabric == Submit(Free(), INITIAL, m, now)
            && run[5].fabric == s5 && run[6].fabric == Complete(Free(), s5, FOREIGN, now).0
  {
    hide Submit, Tick, Complete, RegisterWorker, PrepareDispatch, Identity.KeyOf, WidePlay, Sent;
    var p, run, steps := Free(), ForeignRun(m, q, now), ForeignSteps(m, q, now);
    WidePlayFollows(p, steps);
    ForeignStart(m, q, now);
    assert run[5] == WideNext(p, run[4], steps[4]) && run[6] == WideNext(p, run[5], steps[5]);
  }

  lemma ForeignStart(m: Metadata, q: Metadata, now: int)
    ensures var run := ForeignRun(m, q, now); run[1].fabric == Submit(Free(), INITIAL, m, now) && run[4].fabric == Sent(m, now)
  {
    hide Submit, Tick, Complete, RegisterWorker, PrepareDispatch, Identity.KeyOf, WidePlay;
    var p, run, steps := Free(), ForeignRun(m, q, now), ForeignSteps(m, q, now);
    WidePlayFollows(p, steps);
    assert run[1] == WideNext(p, run[0], steps[0]) && run[2] == WideNext(p, run[1], steps[1]);
    assert run[2].fabric == Ticked(m, now);
    assert run[3] == WideNext(p, run[2], steps[2]) && run[4] == WideNext(p, run[3], steps[3]);
  }

  /** The second request is queued, and no batch lists it. */
  predicate Stranger(s: State) {
    && 2 in s.requests && s.requests[2].state.Eligible? && s.requests[2].current == 2
    && 2 in s.attempts && s.attempts[2].state.Eligible?
    && forall b :: b in s.batches ==> 2 !in s.batches[b].members
  }

  lemma StrangerArrives(s: State, m: Metadata, key: Key, q: Metadata, now: int)
    requires Only(s, m, key, RequestState.Dispatched, 1) && InOne(s, 1, m, key, BatchState.Dispatched) && Joined(s)
    requires Acceptable(q, now) && s.batches.Keys == {1}
    ensures var s' := Submit(Free(), s, q, now);
            && Stranger(s') && Joined(s') && s'.epoch == 1 && s'.batches == s.batches && s'.requests[1] == s.requests[1]
            && var k := s'.requests[2].key; k in s'.index && 2 in s'.index[k]
  {
    hide Identity.KeyOf, Fairness.NoteWork;
    assert Admit(Free(), s, q, now).Admitted?;
    assert 1 in s.batches && 2 !in s.batches[1].members;
  }

  lemma StrangerCompletes(s: State, now: int)
    requires Stranger(s) && Authority(s, FOREIGN).Ok?
    ensures var s' := Complete(Free(), s, FOREIGN, now).0;
            && 2 in s'.requests && s'.requests[2].state.Completed? && s'.index == s.index && s'.requests[2].key == s.requests[2].key
  {
    hide SetOutcome, Fairness.NoteDone, Add64, Authority, AllTerminal;
    var ms := FOREIGN.members;
    assert ms[..0] == [];
    assert ReportAll(Free(), s, ms[..0], now) == s;
    assert ReportAll(Free(), s, ms, now) == ReportOne(Free(), s, ms[0], now);
  }

  /** The report is accepted and completes the second request, which is in no batch and
      stays in the index. */
  predicate Landed(s: State, s': State) {
    && 1 in s.batches && Authority(s, FOREIGN).Ok? && Stranger(s) && 2 in s'.requests && s'.requests[2].state.Completed?
    && !Departures.Contained(s, s', 1) && s'.requests[2].key in s'.index && 2 in s'.index[s'.requests[2].key]
  }

  /** For every two requests with an identity that are not late: submit the first, tick,
      dispatch its batch, submit the second, and let a driver report the second under the
      number of that batch. */
  lemma ForeignReportLands(m: Metadata, q: Metadata, now: int)
    requires Acceptable(m, now) && Acceptable(q, now)
    ensures var run := ForeignRun(m, q, now);
            && IsWideRun(Free(), run, ForeignSteps(m, q, now))
            && RealTick(run[1].fabric, Identity.KeyOf(m.descriptor), now) && Landed(run[5].fabric, run[6].fabric)
  {
    hide ForeignRun, IsWideRun, Submit, Complete, Identity.KeyOf, Acceptable, Sent, Ticked, RegisterWorker, PrepareDispatch, Authority, RealTick;
    var s4, s5, key := Sent(m, now), Submit(Free(), Sent(m, now), q, now), Identity.KeyOf(m.descriptor);
    ForeignStates(m, q, now);
    TickedShape(m, now);
    SentShape(m, now);
    StrangerArrives(s4, m, key, q, now);
    ReportAccepted(s5, m, key, FOREIGN.members);
    StrangerCompletes(s5, now);
  }

  // ---- a failure that revives ----

  function FailingSteps(m: Metadata, error: U32, message: Bytes, now: int): seq<WideStep> {
    [WideStep.Plain(Submission(m, now)), WideStep.Plain(TickStep(TheTick(Identity.KeyOf(m.descriptor)), 0, now)),
     WideStep.Plain(Cancellation(1, now)), Failing(1, 0, error, message, now)]
  }

  ghost function FailingRun(m: Metadata, error: U32, message: Bytes, now: int): (run: seq<System>)
    ensures |run| == 5
  {
    WidePlay(Free(), FailingSteps(m, error, message, now))
  }

  lemma FailingStates(m: Metadata, error: U32, message: Bytes, now: int)
    ensures var run := FailingRun(m, error, message, now);
            && IsWideRun(Free(), run, FailingSteps(m, error, message, now))
            && run[1].fabric == Submit(Free(), INITIAL, m, now)
            && run[2].fabric == Ticked(m, now) && run[3].fabric == Cancel(Free(), Ticked(m, now), 1, now).0
            && run[4].fabric == DispatchAndFail(Free(), run[3].fabric, 1, 0, error, message, now).0
  {
    hide Submit, Tick, Cancel, DispatchAndFail, Identity.KeyOf, WidePlay;
    var p, run, steps := Free(), FailingRun(m, error, message, now), FailingSteps(m, error, message, now);
    WidePlayFollows(p, steps);
    assert run[1] == WideNext(p, run[0], steps[0]) && run[2] == WideNext(p, run[1], steps[1]);
    assert run[3] == WideNext(p, run[2], steps[2]) && run[4] == WideNext(p, run[3], steps[3]);
  }

  lemma CancelledInPlace(s: State, m: Metadata, key: Key, now: int)
    requires Only(s, m, key, RequestState.Batched, 1) && InOne(s, 1, m, key, BatchState.Sealed)
    ensures var (s', code) := Cancel(Free(), s, 1, now);
            && code.Ok? && Only(s', m, key, RequestState.Cancelled, 1) && InOne(s', 1, m, key, BatchState.Sealed)
            && s'.stats.cancelled == s.stats.cancelled + 1
  {
  }

  lemma FailureRequeues(s: State, m: Metadata, key: Key, error: U32, message: Bytes, now: int)
    requires Only(s, m, key, RequestState.Cancelled, 1) && InOne(s, 1, m, key, BatchState.Sealed)
    ensures var s' := DispatchAndFail(Free(), s, 1, 0, error, message, now).0;
            s'.requests.Keys == {1} && s'.requests[1].state.Eligible? && s'.stats.cancelled == s.stats.cancelled
  {
    hide FailAll;
    var s2 := Start(Hand(s, 1, 0, 0), 1);
    assert Only(s2, m, key, RequestState.Cancelled, 1) && s2.batches[1].members == [1] && s2.stats == s.stats;
    MemberRequeues(s2, m, key, error, message, now);
  }

  lemma MemberRequeues(s: State, m: Metadata, key: Key, error: U32, message: Bytes, now: int)
    requires Only(s, m, key, RequestState.Cancelled, 1)
    ensures var s' := FailAll(Free(), s, [1], error, message, now);
            s'.requests.Keys == {1} && s'.requests[1].state.Eligible? && s'.stats.cancelled == s.stats.cancelled
  {
    hide SetOutcome, IndexAdd;
    var one := [1];
    assert one[..0] == [];
    assert FailAll(Free(), s, one[..0], error, message, now) == s;
    assert FailAll(Free(), s, one, error, message, now) == FailOne(Free(), s, 1, error, message, now);
  }

  /** For every request with an identity that is not late: submit it, tick, cancel it,
      and let the executor of its batch fail. It is eligible again, and the counter of
      cancelled requests says one. */
  lemma FailureRevivesCancelled(m: Metadata, error: U32, message: Bytes, now: int)
    requires Acceptable(m, now)
    ensures var run := FailingRun(m, error, message, now);
            && IsWideRun(Free(), run, FailingSteps(m, error, message, now))
            && RealTick(run[1].fabric, Identity.KeyOf(m.descriptor), now)
            && InState(run[3].fabric.requests, RequestState.Cancelled) == {1} && run[3].fabric.stats.cancelled == 1
            && 1 in run[4].fabric.requests && run[4].fabric.requests[1].state.Eligible?
            && InState(run[4].fabric.requests, RequestState.Cancelled) == {} && run[4].fabric.stats.cancelled == 1
  {
    hide FailingRun, IsWideRun, Submit, Cancel, DispatchAndFail, Identity.KeyOf, Acceptable, Ticked, RealTick;
    var run, key := FailingRun(m, error, message, now), Identity.KeyOf(m.descriptor);
    FailingStates(m, error, message, now);
    TickedShape(m, now);
    CancelledInPlace(run[2].fabric, m, key, now);
    FailureRequeues(run[3].fabric, m, key, error, message, now);
  }
}
