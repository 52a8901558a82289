/** A run that completes a request and then retries it: the counter of completed
    requests is wrong from there on. */
module Revival {
  import opened Types
  import opened Scheduler
  import opened Network
  import opened WideRuns
  import opened Smuggling
  import opened Solo
  import opened Engine
  import opened Ledger
  import Identity
  import Fairness

  // ---- the local run ----

  const SUCCESS := Outcome(1, 0)

  /** Nothing new is queued or numbered. */
  predicate InLineBut(s: State, s': State) {
    s'.index == s.index && s'.forming == s.forming && s'.nextBatch == s.nextBatch && s'.nextGeneration == s.nextGeneration
  }

  lemma Reported(s: State, m: Metadata, key: Key, now: int)
    requires Only(s, m, key, RequestState.Running, 1) && !Terminal(s.attempts[1].state)
    ensures var s' := ReportAll(Free(), s, [SUCCESS], now);
            Only(s', m, key, RequestState.Completed, 1) && InLineBut(s, s') && s'.stats.completed == s.stats.completed + 1
  {
    hide SetOutcome, Fairness.NoteDone, Add64;
    var one := [SUCCESS];
    assert one[..0] == [];
    assert ReportAll(Free(), s, one[..0], now) == s;
    assert ReportAll(Free(), s, one, now) == ReportOne(Free(), s, SUCCESS, now);
  }

  lemma LocalAccepted(s: State, m: Metadata, key: Key)
    requires Only(s, m, key, RequestState.Running, 1) && InOne(s, 1, m, key, BatchState.Running)
    ensures Authority(s, Completion(0, 0, 1, 1, 1, [SUCCESS])).Ok?
  {
  }

  /** What the executor returns. */
  const RESULT := MemberResult(1, 1, [])

  lemma RunOnce(s: State, m: Metadata, key: Key, now: int)
    requires Only(s, m, key, RequestState.Batched, 1) && InOne(s, 1, m, key, BatchState.Sealed) && !Terminal(s.attempts[1].state)
    ensures var s' := DispatchAndRun(Free(), s, 1, 0, [RESULT], now).0;
            Only(s', m, key, RequestState.Completed, 1) && InLineBut(s, s') && s'.stats.completed == s.stats.completed + 1
  {
    hide Hand, Start, ReportAll, Close, Authority;
    Started(s, m, key, 1, 1);
    var s2 := Start(Hand(s, 1, 0, 0), 1);
    assert Successes([RESULT]) == [SUCCESS];
    LocalAccepted(s2, m, key);
    Reported(s2, m, key, now);
    Closing(ReportAll(Free(), s2, [SUCCESS], now), m, key);
  }

  lemma Closing(s: State, m: Metadata, key: Key)
    requires Only(s, m, key, RequestState.Completed, 1)
    ensures var s' := Close(s, 1);
            Only(s', m, key, RequestState.Completed, 1) && InLineBut(s, s') && s'.stats.completed == s.stats.completed
  {
    hide AllTerminal;
  }

  // ---- the run ----

  function Steps(m: Metadata, now: int): seq<WideStep> {
    var key := Identity.KeyOf(m.descriptor);
    [WideStep.Plain(Submission(m, now)), WideStep.Plain(TickStep(TheTick(key), 0, now)),
     WideStep.Plain(LocalRun(1, 0, [RESULT], now)), Retrying(1, TheTick(key), 0, now)]
  }

  ghost function Run(m: Metadata, now: int): (run: seq<System>)
    ensures |run| == 5
  {
    WidePlay(Free(), Steps(m, now))
  }

  lemma RunStates(m: Metadata, now: int)
    ensures var run, key, p := Run(m, now), Identity.KeyOf(m.descriptor), Free();
            && IsWideRun(p, run, Steps(m, now))
            && run[1].fabric == Submit(p, INITIAL, m, now) && run[2].fabric == Ticked(m, now)
            && run[3].fabric == DispatchAndRun(p, Ticked(m, now), 1, 0, [RESULT], now).0
            && run[4].fabric == WideAfter(p, run[3].fabric, Retrying(1, TheTick(key), 0, now))
  {
    hide Submit, Retry, Tick, DispatchAndRun, Identity.KeyOf, WidePlay;
    WidePlayFollows(Free(), Steps(m, now));
  }

  lemma Revived(s: State, m: Metadata, key: Key, now: int)
    requires Only(s, m, key, RequestState.Completed, 1) && Acceptable(m, now)
    requires s.index == map[] && s.forming == map[] && s.nextBatch == 2 && s.nextGeneration == 2
    ensures var s1 := Retry(Free(), s, 1, now).0;
            var s' := WideAfter(Free(), s, Retrying(1, TheTick(key), 0, now));
            && RealTick(s1, key, now)
            && Only(s', m, key, RequestState.Batched, 2) && s'.stats.completed == s.stats.completed
  {
    hide Tick, Requeue, Only, Acceptable, RealTick;
    RequeuedOnly(s, m, key);
    assert Retry(Free(), s, 1, now) == (Requeue(s, 1, 2), Code.Ok) by { RetryRequeues(s, m, key, now); }
    TickIsReal(Requeue(s, 1, 2), m, key, 2, 2, now);
    TickOne(Requeue(s, 1, 2), m, key, 2, 2, now);
  }

  lemma RetryRequeues(s: State, m: Metadata, key: Key, now: int)
    requires Only(s, m, key, RequestState.Completed, 1) && Acceptable(m, now)
    ensures Retry(Free(), s, 1, now) == (Requeue(s, 1, 2), Code.Ok)
  {
    hide Requeue;
  }

  lemma RequeuedOnly(s: State, m: Metadata, key: Key)
    requires Only(s, m, key, RequestState.Completed, 1) && s.index == map[] && s.forming == map[] && s.nextBatch == 2 && s.nextGeneration == 2
    ensures var s' := Requeue(s, 1, 2);
            Only(s', m, key, RequestState.Eligible, 2) && InLine(s', key, 2) && s'.stats.completed == s.stats.completed
  {
    var none: seq<Id> := [];
    assert none + [1] == [1];
  }

  /** For every request with an identity that is not late: submit it, tick, let its
      batch succeed, retry it, each tick visiting what its loops visit. The counter of
      completed requests says one, and no request is completed. */
  lemma RetryMiscounts(m: Metadata, now: int)
    requires Acceptable(m, now)
    ensures var run, key := Run(m, now), Identity.KeyOf(m.descriptor);
            && RealTick(run[1].fabric, key, now) && RealTick(Retry(Free(), run[3].fabric, 1, now).0, key, now)
            && IsWideRun(Free(), run, Steps(m, now))
            && run[3].fabric.stats.completed == |InState(run[3].fabric.requests, RequestState.Completed)|
            && run[4].fabric.stats.completed == 1 && InState(run[4].fabric.requests, RequestState.Completed) == {}
  {
    hide IsWideRun, Run, Submit, Tick, Retry, DispatchAndRun, WideAfter, Identity.KeyOf, Acceptable, RealTick, Ticked;
    var run, key := Run(m, now), Identity.KeyOf(m.descriptor);
    RunStates(m, now);
    TickedShape(m, now);
    RunOnce(run[2].fabric, m, key, now);
    Revived(run[3].fabric, m, key, now);
    assert InState(run[3].fabric.requests, RequestState.Completed) == {1};
  }
}
