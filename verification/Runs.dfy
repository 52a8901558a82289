/** Theorems about whole core runs. */
module Runs {
  import opened Types
  import opened Policy
  import opened Lists
  import opened Scheduler
  import opened Wide
  import opened Placement
  import opened Core
  import opened Reports
  import opened Trials
  import opened Ledger
  import opened Evolution
  import opened Invariant
  import opened Network

  // ---- finality ----

  /** An attempt has at most one terminal outcome: once finished, its record is the
      same in every later state of the run. */
  lemma AttemptOutcomeIsFinal(p: BatchPolicy, run: seq<System>, steps: seq<Step>, i: nat, j: nat, a: Id)
    requires IsRun(p, run, steps) && i <= j < |run|
    requires a in run[i].fabric.attempts && Terminal(run[i].fabric.attempts[a].state)
    ensures a in run[j].fabric.attempts && run[j].fabric.attempts[a] == run[i].fabric.attempts[a]
  {
    hide IsRun, RequestsEvolve, BatchesEvolve;
    RunEvolves(p, run, steps, i, j);
    assert AttemptEvolves(run[i].fabric.attempts[a], run[j].fabric.attempts[a]);
  }

  /** A terminal request never changes state or attempt again. */
  lemma TerminalRequestIsFinal(p: BatchPolicy, run: seq<System>, steps: seq<Step>, i: nat, j: nat, r: Id)
    requires IsRun(p, run, steps) && i <= j < |run|
    requires r in run[i].fabric.requests && Terminal(run[i].fabric.requests[r].state)
    ensures r in run[j].fabric.requests && SameLife(run[i].fabric.requests[r], run[j].fabric.requests[r])
  {
    hide IsRun, AttemptsEvolve, BatchesEvolve, SameLife, Life;
    RunEvolves(p, run, steps, i, j);
    assert RequestEvolves(p, run[i].fabric.requests[r], run[j].fabric.requests[r]);
  }

  /** The counters are exactly the records they stand for, in every state. */
  lemma CountersBalance(p: BatchPolicy, run: seq<System>, steps: seq<Step>, i: nat)
    requires IsRun(p, run, steps) && i < |run|
    ensures var s := run[i].fabric;
            && s.stats.submitted == |s.requests|
            && |s.attempts| == s.stats.submitted + s.stats.retried
            && s.stats.cancelled == |InState(s.requests, RequestState.Cancelled)|
            && s.stats.expired == |InState(s.requests, RequestState.Expired)|
            && s.stats.completed == |InState(s.requests, RequestState.Completed)|
            && s.stats.totalWork == WorkOf(s.requests, InState(s.requests, RequestState.Completed)) % TWO64
  {
    hide IsRun, WideInv, CoreBut, TrialInv, InState, WorkOf, Bounded;
    RunInv(p, run, steps, i);
  }

  // ---- membership ----

  /** A request is in at most one active batch, once, and its record names that batch. */
  lemma UniqueMembership(p: BatchPolicy, run: seq<System>, steps: seq<Step>, i: nat, b1: Id, b2: Id, r: Id)
    requires IsRun(p, run, steps) && i < |run|
    requires var s := run[i].fabric;
             && b1 in s.batches && b2 in s.batches && Active(s.batches[b1].state) && Active(s.batches[b2].state)
             && r in s.batches[b1].members && r in s.batches[b2].members
    ensures b1 == b2 && NoDup(run[i].fabric.batches[b1].members)
    ensures r in run[i].fabric.requests && run[i].fabric.requests[r].batch == b1
  {
    hide IsRun, TrialInv, LedgerInv, Sound, Keyed, IndexKnown, FormingKnown, Queued, FormingExact, Ordered, Housing, NoDup, MemberState, Bounded;
    RunInv(p, run, steps, i);
    var s := run[i].fabric;
    NoBatchZero(s);
    assert Home(s.requests, b1, s.batches[b1]) && Home(s.requests, b2, s.batches[b2]);
  }

  /** Conversely, a request in a batch state is listed by the batch it names; a
      forming batch lists reserved requests only; an eligible request is queued once
      under its own key. */
  lemma BothSidesAgree(p: BatchPolicy, run: seq<System>, steps: seq<Step>, i: nat, r: Id)
    requires IsRun(p, run, steps) && i < |run| && r in run[i].fabric.requests
    ensures var s, q := run[i].fabric, run[i].fabric.requests[r];
            && (InBatch(q.state) ==> q.batch in s.batches && r in s.batches[q.batch].members && StateMatch(q.state, s.batches[q.batch].state))
            && (q.state.Eligible? <==> exists k :: k in s.index && r in s.index[k])
            && (forall k :: k in s.index && r in s.index[k] ==> k == q.key && NoDup(s.index[k]))
            && (forall b :: b in s.batches && s.batches[b].state.Forming? && r in s.batches[b].members ==> q.state.Reserved?)
  {
    hide IsRun, TrialInv, LedgerInv, Sound, Keyed, IndexKnown, FormingKnown, FormingExact, Ordered, Distinct, NoDup, Bounded;
    RunInv(p, run, steps, i);
    var s, q := run[i].fabric, run[i].fabric.requests[r];
    NoBatchZero(s);
    WaitsOf(s, r);
    assert Housed(s.batches, r, q);
    forall k | k in s.index && r in s.index[k] ensures k == q.key && NoDup(s.index[k]) && q.state.Eligible? {
      assert BucketOk(s.requests, k, s.index[k]);
    }
    forall b | b in s.batches && s.batches[b].state.Forming? && r in s.batches[b].members ensures q.state.Reserved? {
      assert Home(s.requests, b, s.batches[b]);
    }
  }

  /** The forming map and the forming batches are in one-to-one correspondence. */
  lemma FormingIsOneToOne(p: BatchPolicy, run: seq<System>, steps: seq<Step>, i: nat)
    requires IsRun(p, run, steps) && i < |run|
    ensures FormingExact(run[i].fabric.batches, run[i].fabric.forming)
    ensures forall k1, k2 :: k1 in run[i].fabric.forming && k2 in run[i].fabric.forming && k1 != k2
              ==> run[i].fabric.forming[k1] != run[i].fabric.forming[k2]
  {
    hide IsRun, WideInv, Placed, Queued, Ordered, TrialInv, LedgerInv, Bounded;
    RunInv(p, run, steps, i);
  }

  // ---- reports ----

  predicate SameButRequests(s: State, s': State, rs: set<Id>, x: Id) {
    && (forall r :: r in s.requests && r !in rs ==> r in s'.requests && s'.requests[r] == s.requests[r])
    && (forall b :: b in s.batches && b != x ==> b in s'.batches && s'.batches[b] == s.batches[b])
  }

  lemma ReportOneTouches(p: BatchPolicy, s: State, x: Id, n0: Id, mc: MemberCompletion, now: int)
    requires OpenInv(p, s, x, n0) && mc.request in s.batches[x].members && mc.attempt < n0
    ensures SameButRequests(s, ReportOne(p, s, mc, now), {mc.request}, x)
  {
    hide InvBut, Open, IndexAdd, Fairness.NoteDone, CountOutcome;
    if mc.request in s.requests && s.requests[mc.request].current == mc.attempt && mc.attempt in s.attempts {
      var st := s.attempts[mc.attempt].state;
      if !(st.Completed? || st.Cancelled? || st.Expired? || st.Failed?) {
        ReportedIsHome(p, s, x, n0, mc.request, mc.attempt);
      }
    }
  }

  lemma {:induction false} ReportAllTouches(p: BatchPolicy, s: State, x: Id, n0: Id, ms: seq<MemberCompletion>, now: int, rs: set<Id>)
    requires OpenInv(p, s, x, n0) && Honest(s.batches[x].members, n0, ms)
    requires forall i :: 0 <= i < |ms| ==> ms[i].request in rs
    ensures SameButRequests(s, ReportAll(p, s, ms, now), rs, x)
  {
    hide OpenInv, ReportOne;
    OpenKnown(p, s, x, n0);
    if ms != [] {
      var n := |ms| - 1;
      var s1 := ReportAll(p, s, ms[..n], now);
      assert Honest(s.batches[x].members, n0, ms[..n]);
      ReportAllTouches(p, s, x, n0, ms[..n], now, rs);
      ReportAllGood(p, s, x, n0, ms[..n], now);
      OpenKnown(p, s1, x, n0);
      ReportOneTouches(p, s1, x, n0, ms[n], now);
    }
  }

  lemma ReportTouchesInside(p: BatchPolicy, s: State, c: Completion, now: int, rs: set<Id>)
    requires Inv(p, s) && Authority(s, c).Ok? && Honest(s.batches[c.batch].members, s.nextAttempt, c.members)
    requires rs == set m | m in s.batches[c.batch].members
    ensures var s' := Complete(p, s, c, now).0;
            SameButRequests(s, s', rs, c.batch) && c.batch in s'.batches && Progress(s'.batches[c.batch].state) == 4
  {
    hide Inv, OpenInv, Honest, ReportAll, Complete;
    OpenStart(p, s, c.batch);
    HonestMembers(s.batches[c.batch].members, s.nextAttempt, c.members);
    ReportAllTouches(p, s, c.batch, s.nextAttempt, c.members, now, rs);
    ReportAllGood(p, s, c.batch, s.nextAttempt, c.members, now);
    OpenKnown(p, ReportAll(p, s, c.members, now), c.batch, s.nextAttempt);
    ClosingTouches(p, s, c, now, rs);
  }

  /** An accepted report changes no request outside the batch it names and no other
      batch, however late or often it arrives. */
  lemma AcceptedReportStaysInside(p: BatchPolicy, run: seq<System>, steps: seq<Step>, i: nat, c: Completion, now: int)
    requires IsRun(p, run, steps) && i < |run| && c in run[i].reports && Authority(run[i].fabric, c).Ok?
    ensures var s, s' := run[i].fabric, Complete(p, run[i].fabric, c, now).0;
            && (forall r :: r in s.requests && r !in s.batches[c.batch].members ==> r in s'.requests && s'.requests[r] == s.requests[r])
            && (forall b :: b in s.batches && b != c.batch ==> b in s'.batches && s'.batches[b] == s.batches[b])
            && c.batch in s'.batches && Progress(s'.batches[c.batch].state) == 4
  {
    hide IsRun, Inv, Honest, Complete;
    RunInv(p, run, steps, i);
    var s := run[i].fabric;
    assert ReportOk(s, c);
    ReportIsHonest(p, s, c);
    ReportTouchesInside(p, s, c, now, set m | m in s.batches[c.batch].members);
  }

  /** Closing the batch of an accepted report touches that batch only. */
  lemma ClosingTouches(p: BatchPolicy, s: State, c: Completion, now: int, rs: set<Id>)
    requires Authority(s, c).Ok? && c.batch in ReportAll(p, s, c.members, now).batches
    requires SameButRequests(s, ReportAll(p, s, c.members, now), rs, c.batch)
    ensures var s' := Complete(p, s, c, now).0;
            SameButRequests(s, s', rs, c.batch) && c.batch in s'.batches && Progress(s'.batches[c.batch].state) == 4
  {
    hide ReportAll, AllTerminal;
  }

  lemma HonestMembers(members: seq<Id>, n0: Id, ms: seq<MemberCompletion>)
    requires Honest(members, n0, ms)
    ensures forall i :: 0 <= i < |ms| ==> ms[i].request in members
  {
  }

  /** A batch accepts at most one report in the whole run. */
  lemma OneReportPerBatch(p: BatchPolicy, run: seq<System>, steps: seq<Step>, i: nat, j: nat, c': Completion)
    requires IsRun(p, run, steps) && i < j < |run| && steps[i].Delivery?
    requires Authority(run[i].fabric, steps[i].report).Ok? && c'.batch == steps[i].report.batch
    ensures !Authority(run[j].fabric, c').Ok?
  {
    hide Inv, Enabled, Complete, ReportOk, RequestsEvolve, AttemptsEvolve;
    var c, now, s := steps[i].report, steps[i].now, run[i].fabric;
    assert Enabled(p, run[i], steps[i]) && run[i + 1] == Next(p, run[i], steps[i]);
    DeliveryStep(p, run[i], steps[i]);
    AcceptedReportStaysInside(p, run, steps, i, c, now);
    RunEvolves(p, run, steps, i + 1, j);
    assert BatchEvolves(run[i + 1].fabric.batches[c.batch], run[j].fabric.batches[c.batch]);
  }

  lemma DeliveryStep(p: BatchPolicy, y: System, step: Step)
    requires step.Delivery? && Enabled(p, y, step)
    ensures step.report in y.reports && Next(p, y, step).fabric == Complete(p, y.fabric, step.report, step.now).0
  {
    hide Complete;
  }

  // ---- bounded life ----

  /** Steps between i and j in which request r changed state or attempt. */
  ghost function Changes(run: seq<System>, r: Id, i: nat, j: nat): nat
    requires i <= j < |run|
    decreases j - i
  {
    if i == j then 0 else
    var before, after := run[j - 1].fabric.requests, run[j].fabric.requests;
    Changes(run, r, i, j - 1) + (if r in before && r in after && !SameLife(before[r], after[r]) then 1 else 0)
  }

  lemma {:induction false} ChangesUseLife(p: BatchPolicy, run: seq<System>, steps: seq<Step>, r: Id, i: nat, j: nat)
    requires IsRun(p, run, steps) && i <= j < |run| && r in run[i].fabric.requests
    ensures r in run[j].fabric.requests
    ensures Changes(run, r, i, j) + Life(p, run[j].fabric.requests[r]) <= Life(p, run[i].fabric.requests[r])
    decreases j - i
  {
    hide IsRun, AttemptsEvolve, BatchesEvolve, Rank;
    if i < j {
      ChangesUseLife(p, run, steps, r, i, j - 1);
      RunEvolves(p, run, steps, j - 1, j);
      assert RequestEvolves(p, run[j - 1].fabric.requests[r], run[j].fabric.requests[r]);
    }
  }

  /** In any run a request changes state or attempt fewer than 6 times per allowed
      attempt, its attempts are numbered 1..n in order, and n stays within the
      retry limit. */
  lemma BoundedLife(p: BatchPolicy, run: seq<System>, steps: seq<Step>, r: Id, i: nat, j: nat)
    requires IsRun(p, run, steps) && i <= j < |run| && r in run[i].fabric.requests
    ensures Changes(run, r, i, j) < 6 * MaxTries(p)
    ensures var s := run[j].fabric;
            && r in s.requests && 1 <= |s.requests[r].attempts| <= MaxTries(p)
            && forall k :: 0 <= k < |s.requests[r].attempts| ==>
                 s.requests[r].attempts[k] in s.attempts && s.attempts[s.requests[r].attempts[k]].number == k + 1
  {
    hide IsRun, WideInv, CoreBut, LedgerInv, DispatchOk, ReportOk, Owned, Bounded;
    ChangesUseLife(p, run, steps, r, i, j);
    RunInv(p, run, steps, i);
    RunInv(p, run, steps, j);
    assert Tried(p, run[i].fabric.attempts, run[i].fabric.requests[r]);
    assert Tried(p, run[j].fabric.attempts, run[j].fabric.requests[r]);
  }
}
