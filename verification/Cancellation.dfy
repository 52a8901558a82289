/** What a cancellation answers and changes, for every state of a run and every request. */
module Cancellation {
  import opened Types
  import opened Policy
  import opened Lists
  import opened Scheduler
  import opened Totals
  import opened Wide
  import opened Placement
  import opened Core
  import opened Trials
  import opened Ledger
  import opened Invariant
  import Limits

  predicate Ended(st: RequestState) { st.Completed? || st.Cancelled? || st.Expired? || st.Rejected? || st.Failed? }

  /** Not in any batch: queued, deferred or just made. */
  predicate Outside(st: RequestState) { st.Created? || st.Eligible? || st.Waiting? }

  predicate Open(st: BatchState) { st.Forming? || st.Sealed? || st.Dispatched? || st.Running? }

  /** A live request can be cancelled unless its batch has been closed around it. */
  predicate Cancellable(s: State, r: Id) {
    && r in s.requests && !Ended(s.requests[r].state)
    && (Outside(s.requests[r].state) || (s.requests[r].batch in s.batches && Open(s.batches[s.requests[r].batch].state)))
  }

  /** The request and its current attempt are cancelled now; no other record changes. */
  predicate RecordsCancelled(s: State, s': State, r: Id, now: int)
    requires r in s.requests
  {
    var q, a := s.requests[r], s.requests[r].current;
    && s'.requests.Keys == s.requests.Keys && s'.requests[r].state.Cancelled? && !s'.requests[r].inWaiting
    && s'.requests[r] == q.(state := RequestState.Cancelled, batch := s'.requests[r].batch, inWaiting := false)
    && (forall z :: z in s.requests && z != r ==> s'.requests[z] == s.requests[z])
    && a in s.attempts
    && s'.attempts == s.attempts[a := s.attempts[a].(state := RequestState.Cancelled, outcome := 3, completed := now)]
  }

  /** It is in no bucket any more, and the buckets are otherwise the same. */
  ghost predicate Unqueued(s: State, s': State, r: Id) {
    && (forall k :: k in s'.index ==> s'.index[k] != [] && r !in s'.index[k])
    && (forall k, z | z != r :: k in s.index && z in s.index[k] <==> k in s'.index && z in s'.index[k])
  }

  /** A forming batch loses the request, with its totals and waiting limit counted
      anew; another open batch keeps it and notes the outcome. No other batch changes. */
  predicate BatchLeft(p: BatchPolicy, s: State, s': State, r: Id, now: int)
    requires r in s.requests && r in s'.requests
  {
    var b := s.requests[r].batch;
    if Outside(s.requests[r].state) then s'.batches == s.batches && s'.requests[r].batch == b
    else
      && b in s.batches && s'.batches.Keys == s.batches.Keys && (forall x :: x in s.batches && x != b ==> s'.batches[x] == s.batches[x])
      && var was, left := s.batches[b], s'.batches[b];
         if was.state.Forming? then
           && s'.requests[r].batch == 0 && left.state.Forming?
           && left.members == Without(was.members, r) && left.accum == Wrap(Usage(s.requests, left.members))
           && left == was.(members := left.members, accum := left.accum, descriptor := left.descriptor, allowedWait := left.allowedWait)
           && (was.descriptor.model != [] ==> left.descriptor == was.descriptor)
           && Limits.Least(p, s.requests, left, now, left.allowedWait)
         else s'.requests[r].batch == b && left == was.(outcomes := was.outcomes[r := 3])
  }

  predicate Elsewhere(s: State, s': State) {
    && s'.workers == s.workers && s'.forming == s.forming && s'.sealedOrder == s.sealedOrder && s'.served == s.served
    && s'.outstanding == s.outstanding && s'.epoch == s.epoch && s'.nextRequest == s.nextRequest && s'.nextBatch == s.nextBatch
    && s'.nextAttempt == s.nextAttempt && s'.nextGeneration == s.nextGeneration
  }

  /** The code, and the change that goes with it. */
  ghost predicate Answered(p: BatchPolicy, s: State, s': State, r: Id, now: int, code: Code) {
    && (code.Ok? <==> Cancellable(s, r)) && (code.NotFound? <==> r !in s.requests) && (code.Ok? || code.NotFound? || code.InvalidState?)
    && if !code.Ok? then s' == s else
       && RecordsCancelled(s, s', r, now) && Unqueued(s, s', r) && BatchLeft(p, s, s', r, now) && Elsewhere(s, s')
       && s'.stats == s.stats.(cancelled := s.stats.cancelled + 1)
  }

  // ---- the index ----

  lemma RemovedFrom(rs: Requests, ix: Index, k: Key, r: Id)
    requires Buckets(rs, ix)
    ensures var ix' := IndexRemove(ix, k, r);
            && (forall j :: j in ix' ==> ix'[j] != [] && (j == k ==> r !in ix'[j]))
            && (forall j, z | j != k || z != r :: j in ix && z in ix[j] <==> j in ix' && z in ix'[j])
  {
    forall j | j in ix ensures ix[j] != [] && NoDup(ix[j]) { assert BucketOk(rs, j, ix[j]); }
    if k in ix { WithoutFirstIsWithout(ix[k], r); }
  }

  /** Nobody is in a bucket but under the request's own key, and only while waiting. */
  lemma OwnBucket(p: BatchPolicy, s: State, r: Id)
    requires Inv(p, s) && r in s.requests
    ensures forall k :: k in s.index && r in s.index[k] ==> k == s.requests[r].key && s.requests[r].inWaiting
    ensures Buckets(s.requests, s.index) && Waits(s.index, r, s.requests[r])
  {
    hide WideInv, Placed, FormingExact, Ordered, TrialInv, LedgerInv, Bounded;
    forall k | k in s.index && r in s.index[k] ensures k == s.requests[r].key && s.requests[r].inWaiting {
      assert BucketOk(s.requests, k, s.index[k]);
    }
  }

  lemma CurrentKnown(p: BatchPolicy, s: State, r: Id)
    requires Inv(p, s) && r in s.requests
    ensures s.requests[r].current in s.attempts
  {
    hide WideInv, CoreBut, Owned, LedgerInv, Bounded;
    assert Tried(p, s.attempts, s.requests[r]);
  }

  /** A request in a batch state that is not cancellable is in a closed batch. */
  lemma HousedOf(p: BatchPolicy, s: State, r: Id)
    requires Inv(p, s) && r in s.requests
    ensures Housed(s.batches, r, s.requests[r])
  {
    hide WideInv, Homes, Distinct, Queued, FormingExact, Ordered, TrialInv, LedgerInv, Bounded;
  }

  lemma EndedIsTerminal(st: RequestState)
    ensures Terminal(st) <==> Ended(st)
    ensures !Terminal(st) ==> (InBatch(st) <==> !Outside(st))
  {
  }

  // ---- the three ways ----

  lemma FromQueue(p: BatchPolicy, s: State, r: Id, now: int)
    requires Inv(p, s) && r in s.requests && Outside(s.requests[r].state)
    ensures Answered(p, s, Cancel(p, s, r, now).0, r, now, Cancel(p, s, r, now).1)
  {
    hide Inv, IndexRemove, Buckets, AllowedWait, Usage, Wrap;
    var q := s.requests[r];
    OwnBucket(p, s, r);
    CurrentKnown(p, s, r);
    RemovedFrom(s.requests, s.index, q.key, r);
    BucketsNonEmpty(s.requests, s.index);
    if q.inWaiting {
      Taken(s, s.(index := IndexRemove(s.index, q.key, r)), r, now);
    } else {
      Taken(s, s, r, now);
    }
  }

  lemma BucketsNonEmpty(rs: Requests, ix: Index)
    requires Buckets(rs, ix)
    ensures forall k :: k in ix ==> ix[k] != []
  {
    forall k | k in ix ensures ix[k] != [] { assert BucketOk(rs, k, ix[k]); }
  }

  lemma Taken(s: State, s1: State, r: Id, now: int)
    requires s1 == s.(index := s1.index) && r in s.requests && s.requests[r].current in s.attempts
    ensures var s' := EndWaiting(s1, r, RequestState.Cancelled, 3, now);
            && RecordsCancelled(s, s', r, now) && s'.index == s1.index && s'.batches == s.batches && Elsewhere(s, s')
            && s'.requests[r].batch == s.requests[r].batch && s'.stats == s.stats.(cancelled := s.stats.cancelled + 1)
  {
  }

  lemma FromForming(p: BatchPolicy, s: State, r: Id, now: int)
    requires Inv(p, s) && r in s.requests && !Outside(s.requests[r].state) && !Ended(s.requests[r].state)
    requires s.requests[r].batch in s.batches && s.batches[s.requests[r].batch].state.Forming?
    ensures Answered(p, s, Cancel(p, s, r, now).0, r, now, Cancel(p, s, r, now).1)
  {
    hide Inv, AllowedWait, Buckets;
    OwnBucket(p, s, r);
    BucketsNonEmpty(s.requests, s.index);
    CurrentKnown(p, s, r);
    FormingLeft(p, s, r, now);
  }

  lemma FormingLeft(p: BatchPolicy, s: State, r: Id, now: int)
    requires r in s.requests && s.requests[r].batch in s.batches && s.requests[r].current in s.attempts
    requires !Outside(s.requests[r].state) && s.batches[s.requests[r].batch].state.Forming? && !s.requests[r].inWaiting
    ensures var s' := CancelForming(p, s, r, now);
            && RecordsCancelled(s, s', r, now) && BatchLeft(p, s, s', r, now) && Elsewhere(s, s') && s'.index == s.index
            && s'.stats == s.stats.(cancelled := s.stats.cancelled + 1)
  {
    hide MinWait, Wrap, Usage, Tally, Limits.Least;
    var b := s.batches[s.requests[r].batch];
    Limits.AllowedWaitIsLeast(p, s.requests, CancelForming(p, s, r, now).batches[s.requests[r].batch], now);
    TallyIsUsage(s.requests, Without(b.members, r));
  }

  lemma FromOpen(p: BatchPolicy, s: State, r: Id, now: int)
    requires Inv(p, s) && r in s.requests && !Outside(s.requests[r].state) && !Ended(s.requests[r].state)
    requires s.requests[r].batch in s.batches && !s.batches[s.requests[r].batch].state.Forming?
    ensures Answered(p, s, Cancel(p, s, r, now).0, r, now, Cancel(p, s, r, now).1)
  {
    hide Inv, AllowedWait, Buckets, Wrap, Usage;
    OwnBucket(p, s, r);
    BucketsNonEmpty(s.requests, s.index);
    CurrentKnown(p, s, r);
    OpenLeft(p, s, r, now);
  }

  lemma OpenLeft(p: BatchPolicy, s: State, r: Id, now: int)
    requires r in s.requests && s.requests[r].batch in s.batches && s.requests[r].current in s.attempts
    requires !Outside(s.requests[r].state) && !s.batches[s.requests[r].batch].state.Forming? && !s.requests[r].inWaiting
    ensures var s' := CancelPlaced(s, r, now);
            && RecordsCancelled(s, s', r, now) && BatchLeft(p, s, s', r, now) && Elsewhere(s, s') && s'.index == s.index
            && s'.stats == s.stats.(cancelled := s.stats.cancelled + 1)
  {
    hide AllowedWait, Wrap, Usage;
  }

  /** Every cancellation in every state of a core run. */
  lemma CancelExact(p: BatchPolicy, s: State, r: Id, now: int)
    requires Inv(p, s)
    ensures Answered(p, s, Cancel(p, s, r, now).0, r, now, Cancel(p, s, r, now).1)
  {
    hide Inv, Answered;
    if r in s.requests {
      EndedIsTerminal(s.requests[r].state);
      HousedOf(p, s, r);
      if Ended(s.requests[r].state) { Refused(p, s, r, now); }
      else if Outside(s.requests[r].state) { FromQueue(p, s, r, now); }
      else if s.batches[s.requests[r].batch].state.Forming? { FromForming(p, s, r, now); }
      else { FromOpen(p, s, r, now); }
    } else { Refused(p, s, r, now); }
  }

  lemma Refused(p: BatchPolicy, s: State, r: Id, now: int)
    requires r in s.requests ==> Ended(s.requests[r].state)
    ensures Answered(p, s, Cancel(p, s, r, now).0, r, now, Cancel(p, s, r, now).1)
  {
    hide AllowedWait, Wrap, Usage;
  }
}
