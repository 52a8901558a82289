/** What a local run answers and changes, whether its executor succeeds or fails. */
module Local {
  import opened Types
  import opened Policy
  import opened Scheduler
  import opened Reporting

  /** The members that were batched or dispatched are running; no other record changes. */
  predicate SetGoing(s: State, s': State, members: seq<Id>) {
    && s'.requests.Keys == s.requests.Keys
    && forall r :: r in s.requests ==>
         s'.requests[r] == if r in members && (s.requests[r].state.Batched? || s.requests[r].state.Dispatched?)
                           then s.requests[r].(state := RequestState.Running) else s.requests[r]
  }

  /** The boot id under which a worker is registered, zero when it is not. */
  function BootOf(s: State, worker: Id): Id { if worker in s.workers then s.workers[worker].boot else 0 }

  /** The batch is running at the worker, with its members. */
  predicate Begun(s: State, s': State, bid: Id, worker: Id)
    requires bid in s.batches
  {
    && SetGoing(s, s', s.batches[bid].members)
    && s' == s.(requests := s'.requests,
                batches := s.batches[bid := s.batches[bid].(state := BatchState.Running, worker := worker, boot := BootOf(s, worker))])
  }

  lemma BeginExact(s: State, bid: Id, worker: Id)
    requires bid in s.batches
    ensures bid in Hand(s, bid, worker, BootOf(s, worker)).batches
    ensures Begun(s, Start(Hand(s, bid, worker, BootOf(s, worker)), bid), bid, worker)
  {
  }

  predicate Refused(s: State, s': State, bid: Id, code: Code) {
    s' == s && (code.NotFound? <==> bid !in s.batches) && (code.InvalidState? <==> bid in s.batches)
  }

  /** The report of a run: each result as a success, without a message. */
  predicate Reports(ms: seq<MemberCompletion>, results: seq<MemberResult>) {
    |ms| == |results|
    && forall i :: 0 <= i < |ms| ==>
         ms[i] == MemberCompletion(results[i].request, results[i].attempt, 0, results[i].output, 0, [])
  }

  /** The executor returned: its results are reported for the batch as it is running. */
  ghost predicate Returned(p: BatchPolicy, s: State, s': State, bid: Id, worker: Id, results: seq<MemberResult>, now: int, code: Code)
    requires bid in s.batches
  {
    exists s1, ms :: Begun(s, s1, bid, worker) && Reports(ms, results)
      && var b := s.batches[bid]; Answered(p, s1, s', Completion(worker, BootOf(s, worker), b.epoch, b.generation, bid, ms), now, code)
  }

  lemma LocalRunExact(p: BatchPolicy, s: State, bid: Id, worker: Id, results: seq<MemberResult>, now: int)
    ensures var (s', code) := DispatchAndRun(p, s, bid, worker, results, now);
            if bid in s.batches && s.batches[bid].state.Sealed? then Returned(p, s, s', bid, worker, results, now, code)
            else Refused(s, s', bid, code)
  {
    hide Complete, Answered, Hand, Start;
    if bid in s.batches && s.batches[bid].state.Sealed? {
      BeginExact(s, bid, worker);
      var s1, b := Start(Hand(s, bid, worker, BootOf(s, worker)), bid), s.batches[bid];
      var ms := Successes(results);
      assert Reports(ms, results);
      CompleteExact(p, s1, Completion(worker, BootOf(s, worker), b.epoch, b.generation, bid, ms), now);
    }
  }

  // ---- a failure ----

  /** A member whose current attempt is known gets a retryable failure, ended or not. */
  predicate MemberFailed(p: BatchPolicy, s: State, s': State, m: Id, error: U32, message: Bytes, now: int) {
    if m in s.requests && s.requests[m].current in s.attempts
    then Applied(p, s, s', MemberCompletion(m, s.requests[m].current, 1, [], error, message), now)
    else s' == s
  }

  /** The states between the members. */
  ghost predicate FailedInTurn(p: BatchPolicy, between: seq<State>, ms: seq<Id>, error: U32, message: Bytes, now: int) {
    |between| == |ms| + 1 && forall i :: 0 <= i < |ms| ==> MemberFailed(p, between[i], between[i + 1], ms[i], error, message, now)
  }

  lemma {:induction false} FailuresInTurn(p: BatchPolicy, s: State, ms: seq<Id>, error: U32, message: Bytes, now: int) returns (between: seq<State>)
    ensures FailedInTurn(p, between, ms, error, message, now) && between[0] == s
    ensures between[|ms|] == FailAll(p, s, ms, error, message, now)
  {
    hide ApplyOutcome, Applied;
    if ms == [] {
      between := [s];
    } else {
      var n := |ms| - 1;
      var part := FailuresInTurn(p, s, ms[..n], error, message, now);
      between := part + [FailAll(p, s, ms, error, message, now)];
      var s1 := FailAll(p, s, ms[..n], error, message, now);
      if ms[n] in s1.requests && s1.requests[ms[n]].current in s1.attempts {
        ApplyExact(p, s1, MemberCompletion(ms[n], s1.requests[ms[n]].current, 1, [], error, message), now);
      }
      forall i | 0 <= i < |ms| ensures MemberFailed(p, between[i], between[i + 1], ms[i], error, message, now) {
        if i < n { assert between[i] == part[i] && between[i + 1] == part[i + 1] && ms[..n][i] == ms[i]; }
      }
    }
  }

  /** The executor failed: the batch is left running, its members fail one by one. */
  lemma LocalFailureExact(p: BatchPolicy, s: State, bid: Id, worker: Id, error: U32, message: Bytes, now: int)
    ensures var (s', code) := DispatchAndFail(p, s, bid, worker, error, message, now);
            if bid in s.batches && s.batches[bid].state.Sealed? then
              code.ExecutorFailed?
              && exists between :: FailedInTurn(p, between, s.batches[bid].members, error, message, now)
                                   && Begun(s, between[0], bid, worker) && between[|s.batches[bid].members|] == s'
            else Refused(s, s', bid, code)
  {
    hide Hand, Start, FailAll, Begun, MemberFailed;
    if bid in s.batches && s.batches[bid].state.Sealed? {
      BeginExact(s, bid, worker);
      var s1 := Start(Hand(s, bid, worker, BootOf(s, worker)), bid);
      assert s1.batches[bid].members == s.batches[bid].members by { BegunMembers(s, s1, bid, worker); }
      var between := FailuresInTurn(p, s1, s.batches[bid].members, error, message, now);
    }
  }

  lemma BegunMembers(s: State, s': State, bid: Id, worker: Id)
    requires bid in s.batches && Begun(s, s', bid, worker)
    ensures bid in s'.batches && s'.batches[bid].members == s.batches[bid].members
  {
  }
}
