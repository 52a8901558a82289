/** What a dispatch answers, changes and carries. */
module Handover {
  import opened Types
  import opened Policy
  import opened Scheduler
  import opened Totals
  import opened Wide
  import opened Core
  import opened Trials
  import opened Ledger
  import opened Invariant
  import opened Network

  /** The entry for request `r`: its current attempt and its sizes. */
  predicate Describes(w: MemberWork, r: Id, q: Request) {
    && w.request == r && w.attempt == q.current && w.work == q.meta.work && w.input == q.meta.input
    && w.output == q.meta.output && w.payload == q.meta.payload
  }

  /** One entry for each member, in order, under the stamps and the descriptor of the
      batch. */
  predicate Carries(s: State, bid: Id, worker: Id, e: Execution) {
    && bid in s.batches
    && var b := s.batches[bid];
       && e.batch == bid && e.generation == b.generation && e.epoch == b.epoch && e.worker == worker
       && e.descriptor == b.descriptor && |e.members| == |b.members|
       && forall i :: 0 <= i < |b.members| ==>
            b.members[i] in s.requests && Describes(e.members[i], b.members[i], s.requests[b.members[i]])
  }

  /** The members that were batched are dispatched; no other record changes. */
  predicate Moved(s: State, s': State, members: seq<Id>) {
    && s'.requests.Keys == s.requests.Keys
    && forall r :: r in s.requests ==>
         s'.requests[r] == if r in members && s.requests[r].state.Batched? then s.requests[r].(state := RequestState.Dispatched)
                           else s.requests[r]
  }

  /** The code, and the change that goes with it. */
  predicate Answered(s: State, s': State, bid: Id, worker: Id, boot: Id, code: Code) {
    && (code.NotFound? <==> bid !in s.batches)
    && (code.InvalidState? <==> bid in s.batches && !s.batches[bid].state.Sealed?)
    && (code.Ok? <==> bid in s.batches && s.batches[bid].state.Sealed?
                      && worker in s.workers && s.workers[worker].live && s.workers[worker].boot == boot)
    && (code.Ok? || code.NotFound? || code.InvalidState? || code.StaleWorker?)
    && if !code.Ok? then s' == s else
       && Moved(s, s', s.batches[bid].members)
       && s' == s.(requests := s'.requests,
                   batches := s.batches[bid := s.batches[bid].(state := BatchState.Dispatched, worker := worker, boot := boot)])
  }

  lemma DispatchExact(s: State, bid: Id, worker: Id, boot: Id)
    ensures Answered(s, PrepareDispatch(s, bid, worker, boot).0, bid, worker, boot, PrepareDispatch(s, bid, worker, boot).1)
  {
  }

  lemma {:induction false} WorkDescribes(rs: Requests, members: seq<Id>)
    requires forall m :: m in members ==> m in rs
    ensures var w := Work(rs, members);
            |w| == |members| && forall i :: 0 <= i < |members| ==> members[i] in rs && Describes(w[i], members[i], rs[members[i]])
  {
    if members != [] {
      var n := |members| - 1;
      WorkDescribes(rs, members[..n]);
      forall i | 0 <= i < n ensures Describes(Work(rs, members)[i], members[i], rs[members[i]]) {
        assert members[..n][i] == members[i];
      }
    }
  }

  lemma MembersKnown(p: BatchPolicy, s: State, bid: Id)
    requires Inv(p, s) && bid in s.batches
    ensures forall m :: m in s.batches[bid].members ==> m in s.requests
  {
    hide Numbered, Keyed, IndexKnown, FormingKnown, CoreBut, TrialInv, LedgerInv, Bounded, Usage;
    forall m | m in s.batches[bid].members ensures m in s.requests {
      assert Sound(p, s.requests, s.batches[bid]) && Candidate(p, s.requests, s.batches[bid].key, m);
    }
  }

  lemma MessageCarries(p: BatchPolicy, s: State, bid: Id, worker: Id, boot: Id)
    requires Inv(p, s) && PrepareDispatch(s, bid, worker, boot).1.Ok?
    ensures Carries(s, bid, worker, ExecutionOf(PrepareDispatch(s, bid, worker, boot).0, bid))
  {
    hide Inv, Work;
    var s' := PrepareDispatch(s, bid, worker, boot).0;
    MembersKnown(p, s, bid);
    WorkDescribes(s'.requests, s.batches[bid].members);
  }

  /** In every core run an accepted dispatch puts one message in flight, and it carries
      every member of the batch. */
  lemma DispatchCarries(p: BatchPolicy, run: seq<System>, steps: seq<Step>, i: nat)
    requires IsRun(p, run, steps) && i < |steps| && steps[i].Dispatch?
    ensures var s, step, bid := run[i].fabric, steps[i], steps[i].batch;
            if bid in s.batches && s.batches[bid].state.Sealed? && step.worker in s.workers && s.workers[step.worker].live
               && s.workers[step.worker].boot == step.boot then
              exists e :: run[i + 1].dispatches == run[i].dispatches + {e} && Carries(s, bid, step.worker, e)
            else run[i + 1].dispatches == run[i].dispatches
  {
    hide Inv, ExecutionOf, Carries, PrepareDispatch;
    var s, step := run[i].fabric, steps[i];
    assert run[i + 1] == Next(p, run[i], step);
    RunInv(p, run, steps, i);
    DispatchExact(s, step.batch, step.worker, step.boot);
    if PrepareDispatch(s, step.batch, step.worker, step.boot).1.Ok? {
      MessageCarries(p, s, step.batch, step.worker, step.boot);
    }
  }
}
