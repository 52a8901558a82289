/** What a completion report answers and changes: the five checks, one entry for each
    status, and the closing of the batch. */
module Reporting {
  import opened Types
  import opened Policy
  import opened Scheduler
  import Cancellation
  import Fairness

  // ---- one entry ----

  /** The entry is about the request's current attempt, which has not ended. */
  predicate Counts(s: State, mc: MemberCompletion) {
    && mc.request in s.requests && s.requests[mc.request].current == mc.attempt && mc.attempt in s.attempts
    && var st := s.attempts[mc.attempt].state; !st.Completed? && !st.Cancelled? && !st.Expired? && !st.Failed?
  }

  /** The entry names an attempt that the request has left behind. */
  predicate Stale(s: State, mc: MemberCompletion) { mc.request in s.requests && s.requests[mc.request].current != mc.attempt }

  /** What the request and its attempt become for this status. */
  predicate Becomes(status: U8, st: RequestState) {
    && (status == 0 ==> st.Completed?) && (status == 1 || status == 2 ==> st.Failed?)
    && (status == 3 ==> st.Cancelled?) && (status == 4 ==> st.Expired?)
  }

  /** The attempt is over as the entry says: a success leaves its result, a failure its
      error code. */
  predicate AttemptOver(a: Attempt, a': Attempt, mc: MemberCompletion, now: int) {
    && Becomes(mc.status, a'.state) && a'.number == a.number && a'.outcome == mc.status && a'.completed == now
    && a'.result == (if mc.status == 0 then mc.result else a.result)
    && a'.error == (if mc.status == 1 || mc.status == 2 then mc.errorCode else a.error)
  }

  /** The batch that the request names notes the outcome; no other batch changes. */
  predicate Noted(s: State, s': State, mc: MemberCompletion)
    requires mc.request in s.requests
  {
    var b := s.requests[mc.request].batch;
    if b !in s.batches then s'.batches == s.batches
    else s'.batches == s.batches[b := s.batches[b].(outcomes := s.batches[b].outcomes[mc.request := mc.status])]
  }

  /** `t` has `work` less, but not less than nothing. */
  predicate Relieved(m: map<U64, U64>, m': map<U64, U64>, t: U64, work: U64) {
    var had := if t in m then m[t] else 0;
    && m'.Keys == m.Keys + {t} && m'[t] == (if had <= work then 0 else had - work)
    && forall u :: u in m && u != t ==> m'[u] == m[u]
  }

  /** The counters for this status; the next attempt of a retry is counted as well. */
  function Tally(t: Stats, status: U8, work: U64, retried: bool): Stats {
    t.(completed := t.completed + (if status == 0 then 1 else 0),
       totalWork := if status == 0 then (t.totalWork + work) % 0x1_0000_0000_0000_0000 else t.totalWork,
       retryableFailures := t.retryableFailures + (if status == 1 then 1 else 0),
       cancelled := t.cancelled + (if status == 3 then 1 else 0),
       expired := t.expired + (if status == 4 then 1 else 0),
       stale := t.stale + (if status == 5 || status == 6 then 1 else 0),
       retried := t.retried + (if retried then 1 else 0))
  }

  predicate Elsewhere(s: State, s': State) {
    && s'.workers == s.workers && s'.forming == s.forming && s'.sealedOrder == s.sealedOrder && s'.served == s.served
    && s'.epoch == s.epoch && s'.nextRequest == s.nextRequest && s'.nextBatch == s.nextBatch && s'.nextGeneration == s.nextGeneration
  }

  /** A retryable failure with attempts left: the request is queued under a new attempt. */
  predicate Again(p: BatchPolicy, s: State, mc: MemberCompletion) {
    mc.attempt in s.attempts && mc.status == 1 && p.retryEnabled && s.attempts[mc.attempt].number < p.maxAttempts
  }

  /** The request has ended, and stays in its batch. */
  predicate Over(s: State, s': State, mc: MemberCompletion, now: int)
    requires mc.request in s.requests && mc.attempt in s.attempts
  {
    var q := s.requests[mc.request];
    && mc.request in s'.requests && mc.attempt in s'.attempts
    && Becomes(mc.status, s'.requests[mc.request].state)
    && s'.requests == s.requests[mc.request := q.(state := s'.requests[mc.request].state)]
    && AttemptOver(s.attempts[mc.attempt], s'.attempts[mc.attempt], mc, now)
    && s'.attempts == s.attempts[mc.attempt := s'.attempts[mc.attempt]]
    && s'.index == s.index && s'.nextAttempt == s.nextAttempt
  }

  /** The request is eligible again under the next attempt, at the end of its bucket. */
  predicate Requeued(s: State, s': State, r: Id, number: nat)
    requires r in s.requests
  {
    var q, a := s.requests[r], s.nextAttempt;
    && s'.requests == s.requests[r := q.(state := RequestState.Eligible, current := a, attempts := q.attempts + [a], batch := 0, inWaiting := true)]
    && s'.nextAttempt == a + 1
    && s'.index == (if q.key in s.index then s.index[q.key := s.index[q.key] + [r]] else s.index[q.key := [r]])
    && a in s'.attempts && s'.attempts[a] == Attempt(number, RequestState.Eligible, 0, [], 0, 0)
  }

  predicate OverAndAgain(s: State, s': State, mc: MemberCompletion, now: int)
    requires mc.request in s.requests && mc.attempt in s.attempts
  {
    && Requeued(s, s', mc.request, s.attempts[mc.attempt].number + 1)
    && (mc.attempt != s.nextAttempt ==>
          && mc.attempt in s'.attempts && AttemptOver(s.attempts[mc.attempt], s'.attempts[mc.attempt], mc, now)
          && s'.attempts == s.attempts[mc.attempt := s'.attempts[mc.attempt]][s.nextAttempt := s'.attempts[s.nextAttempt]])
  }

  /** What is reported has been applied to the request and the attempt it names. */
  predicate Applied(p: BatchPolicy, s: State, s': State, mc: MemberCompletion, now: int)
    requires mc.request in s.requests && mc.attempt in s.attempts
  {
    var q := s.requests[mc.request];
    && s'.stats == Tally(s.stats, mc.status, q.meta.work, Again(p, s, mc))
    && (if mc.status == 0 && p.fairness.enabled then Relieved(s.outstanding, s'.outstanding, q.meta.tenant, q.meta.work)
        else s'.outstanding == s.outstanding)
    && Elsewhere(s, s')
    && if mc.status > 4 then s' == s.(stats := s'.stats)
       else Noted(s, s', mc) && if Again(p, s, mc) then OverAndAgain(s, s', mc, now) else Over(s, s', mc, now)
  }

  /** One entry of an accepted report. */
  predicate EntryDone(p: BatchPolicy, s: State, s': State, mc: MemberCompletion, now: int) {
    if Stale(s, mc) then s' == s.(stats := s.stats.(stale := s.stats.stale + 1))
    else if !Counts(s, mc) then s' == s
    else Applied(p, s, s', mc, now)
  }

  lemma Relieves(m: map<U64, U64>, t: U64, work: U64)
    ensures Relieved(m, Fairness.NoteDone(m, t, work), t, work)
  {
  }

  lemma TallyExact(t: Stats, status: U8, work: U64)
    ensures CountOutcome(t, status, work) == Tally(t, status, work, false)
  {
  }

  lemma SettleExact(s: State, mc: MemberCompletion, now: int)
    requires mc.request in s.requests && mc.attempt in s.attempts && mc.status <= 4
    ensures var s' := Settle(s, mc.request, mc.attempt, OutcomeState(mc.status), mc, now);
            && Over(s, s', mc, now) && Noted(s, s', mc)
            && s' == s.(requests := s'.requests, attempts := s'.attempts, batches := s'.batches)
  {
  }

  lemma RequeueExact(s: State, r: Id, number: nat)
    requires r in s.requests
    ensures var s' := Requeue(s, r, number);
            && Requeued(s, s', r, number) && s'.attempts == s.attempts[s.nextAttempt := s'.attempts[s.nextAttempt]]
            && s' == s.(requests := s'.requests, attempts := s'.attempts, index := s'.index, nextAttempt := s'.nextAttempt,
                        stats := s.stats.(retried := s.stats.retried + 1))
  {
    var none: seq<Id> := [];
    assert none + [r] == [r];
  }

  /** The accounts of the tenant after a report on this status. */
  function Accounts(p: BatchPolicy, s: State, mc: MemberCompletion): map<U64, U64>
    requires mc.request in s.requests
  {
    var m := s.requests[mc.request].meta;
    if mc.status == 0 && p.fairness.enabled then Fairness.NoteDone(s.outstanding, m.tenant, m.work) else s.outstanding
  }

  /** The request, its attempt and its batch have been settled, and the counters moved. */
  function Settled(p: BatchPolicy, s: State, mc: MemberCompletion, now: int): State
    requires mc.request in s.requests && mc.attempt in s.attempts
  {
    Settle(s, mc.request, mc.attempt, OutcomeState(mc.status), mc, now)
      .(stats := Tally(s.stats, mc.status, s.requests[mc.request].meta.work, false), outstanding := Accounts(p, s, mc))
  }

  lemma ApplyIs(p: BatchPolicy, s: State, mc: MemberCompletion, now: int)
    requires mc.request in s.requests && mc.attempt in s.attempts
    ensures var s' := ApplyOutcome(p, s, mc.request, mc.attempt, mc, now);
            if mc.status > 4 then s' == s.(stats := Tally(s.stats, mc.status, s.requests[mc.request].meta.work, false))
            else if Again(p, s, mc) then s' == Requeue(Settled(p, s, mc, now), mc.request, s.attempts[mc.attempt].number + 1)
            else s' == Settled(p, s, mc, now)
  {
    hide Settle, Requeue, CountOutcome, Tally, Fairness.NoteDone, OutcomeState;
    TallyExact(s.stats, mc.status, s.requests[mc.request].meta.work);
  }

  lemma SettledExact(p: BatchPolicy, s: State, mc: MemberCompletion, now: int)
    requires mc.request in s.requests && mc.attempt in s.attempts && mc.status <= 4
    ensures var s', q := Settled(p, s, mc, now), s.requests[mc.request];
            && Over(s, s', mc, now) && Noted(s, s', mc) && Elsewhere(s, s')
            && (if mc.status == 0 && p.fairness.enabled then Relieved(s.outstanding, s'.outstanding, q.meta.tenant, q.meta.work)
                else s'.outstanding == s.outstanding)
            && s'.stats == Tally(s.stats, mc.status, q.meta.work, false)
  {
    hide Settle, Tally, Fairness.NoteDone, Relieved, OutcomeState, Becomes;
    SettleExact(s, mc, now);
    Relieves(s.outstanding, s.requests[mc.request].meta.tenant, s.requests[mc.request].meta.work);
  }

  lemma AgainExact(p: BatchPolicy, s: State, s1: State, mc: MemberCompletion, now: int)
    requires mc.request in s.requests && mc.attempt in s.attempts && Over(s, s1, mc, now) && Again(p, s, mc) && Elsewhere(s, s1)
    ensures var s' := Requeue(s1, mc.request, s.attempts[mc.attempt].number + 1);
            && OverAndAgain(s, s', mc, now) && Elsewhere(s, s') && s'.batches == s1.batches && s'.outstanding == s1.outstanding
            && s'.stats == s1.stats.(retried := s1.stats.retried + 1)
  {
    hide Requeue, AttemptOver, Becomes;
    RequeueExact(s1, mc.request, s.attempts[mc.attempt].number + 1);
  }

  lemma ApplyExact(p: BatchPolicy, s: State, mc: MemberCompletion, now: int)
    requires mc.request in s.requests && mc.attempt in s.attempts
    ensures Applied(p, s, ApplyOutcome(p, s, mc.request, mc.attempt, mc, now), mc, now)
  {
    hide ApplyOutcome, Settled, Requeue, Tally, Relieved, Over, OverAndAgain, Noted;
    ApplyIs(p, s, mc, now);
    if mc.status <= 4 {
      SettledExact(p, s, mc, now);
      if Again(p, s, mc) {
        AgainExact(p, s, Settled(p, s, mc, now), mc, now);
        TallyRetried(s.stats, s.requests[mc.request].meta.work);
        NotedLater(s, Settled(p, s, mc, now), ApplyOutcome(p, s, mc.request, mc.attempt, mc, now), mc);
      }
    }
  }

  lemma NotedLater(s: State, s1: State, s': State, mc: MemberCompletion)
    requires mc.request in s.requests && Noted(s, s1, mc) && s'.batches == s1.batches
    ensures Noted(s, s', mc)
  {
  }

  lemma TallyRetried(t: Stats, work: U64)
    ensures var u := Tally(t, 1, work, false); u.(retried := u.retried + 1) == Tally(t, 1, work, true)
  {
  }

  /** Every entry in every state. */
  lemma EntryExact(p: BatchPolicy, s: State, mc: MemberCompletion, now: int)
    ensures EntryDone(p, s, ReportOne(p, s, mc, now), mc, now)
  {
    hide ApplyOutcome, Applied;
    if Counts(s, mc) { ApplyExact(p, s, mc, now); }
  }

  // ---- the report ----

  /** Why a report is turned away, the checks in their order, or that it is not. */
  predicate Judged(s: State, c: Completion, code: Code) {
    var current := c.worker in s.workers && s.workers[c.worker].live && s.workers[c.worker].boot == c.boot;
    && (code.StaleEpoch? <==> c.epoch != s.epoch)
    && (code.StaleWorker? <==> c.epoch == s.epoch && !current)
    && (code.NotFound? <==> c.epoch == s.epoch && current && c.batch !in s.batches)
    && (code.StaleAttempt? <==> c.epoch == s.epoch && current && c.batch in s.batches && s.batches[c.batch].generation != c.generation)
    && (code.Ok? <==> c.epoch == s.epoch && current && c.batch in s.batches && s.batches[c.batch].generation == c.generation
                      && (s.batches[c.batch].state.Dispatched? || s.batches[c.batch].state.Running?))
    && (code.Ok? || code.StaleEpoch? || code.StaleWorker? || code.NotFound? || code.StaleAttempt? || code.InvalidState?)
  }

  /** The batch is completed if all its members have ended, and otherwise partially
      completed. */
  predicate Closed(s: State, s': State, bid: Id) {
    if bid !in s.batches then s' == s else
    var all := forall m :: m in s.batches[bid].members ==> m in s.requests && Cancellation.Ended(s.requests[m].state);
    s' == s.(batches := s.batches[bid := s.batches[bid].(state := if all then BatchState.Completed else BatchState.PartiallyCompleted)],
             stats := s.stats.(batchesCompleted := s.stats.batchesCompleted + (if all then 1 else 0)))
  }

  /** The states between the entries of a report. */
  ghost predicate InTurn(p: BatchPolicy, between: seq<State>, ms: seq<MemberCompletion>, now: int) {
    |between| == |ms| + 1 && forall i :: 0 <= i < |ms| ==> EntryDone(p, between[i], between[i + 1], ms[i], now)
  }

  /** An accepted report does its entries in turn and closes its batch; a refused one is
      counted, unless it only comes at the wrong time. */
  ghost predicate Answered(p: BatchPolicy, s: State, s': State, c: Completion, now: int, code: Code) {
    && Judged(s, c, code)
    && if code.Ok? then
         exists between :: InTurn(p, between, c.members, now) && between[0] == s && Closed(between[|c.members|], s', c.batch)
       else s' == s.(stats := s.stats.(stale := s.stats.stale + (if code.InvalidState? then 0 else 1)))
  }

  lemma {:induction false} EntriesInTurn(p: BatchPolicy, s: State, ms: seq<MemberCompletion>, now: int) returns (between: seq<State>)
    ensures InTurn(p, between, ms, now) && between[0] == s && between[|ms|] == ReportAll(p, s, ms, now)
  {
    hide ReportOne, EntryDone;
    if ms == [] {
      between := [s];
    } else {
      var n := |ms| - 1;
      var part := EntriesInTurn(p, s, ms[..n], now);
      between := part + [ReportAll(p, s, ms, now)];
      EntryExact(p, ReportAll(p, s, ms[..n], now), ms[n], now);
      forall i | 0 <= i < |ms| ensures EntryDone(p, between[i], between[i + 1], ms[i], now) {
        if i < n { assert between[i] == part[i] && between[i + 1] == part[i + 1] && ms[..n][i] == ms[i]; }
      }
    }
  }

  lemma CloseExact(s: State, bid: Id)
    ensures Closed(s, Close(s, bid), bid)
  {
  }

  /** Every report in every state. */
  lemma CompleteExact(p: BatchPolicy, s: State, c: Completion, now: int)
    ensures Answered(p, s, Complete(p, s, c, now).0, c, now, Complete(p, s, c, now).1)
  {
    hide ReportAll, Close, Closed, EntryDone;
    var between := EntriesInTurn(p, s, c.members, now);
    CloseExact(ReportAll(p, s, c.members, now), c.batch);
  }

  /** In particular an accepted success leaves what the executor returned as the result
      of the attempt. */
  lemma SuccessLeavesResult(p: BatchPolicy, s: State, mc: MemberCompletion, now: int)
    requires Counts(s, mc) && mc.status == 0
    ensures var s' := ReportOne(p, s, mc, now);
            && mc.request in s'.requests && s'.requests[mc.request].state.Completed?
            && mc.attempt in s'.attempts && s'.attempts[mc.attempt].state.Completed? && s'.attempts[mc.attempt].result == mc.result
  {
    hide ReportOne, Tally, Relieved;
    EntryExact(p, s, mc, now);
  }

  // ---- the public retry ----

  /** The code and the change of a retry, up to the tick it ends with. */
  predicate RetryAnswered(p: BatchPolicy, s: State, s': State, r: Id, now: int, code: Code) {
    && (code.NotFound? <==> r !in s.requests)
    && (r in s.requests ==>
          var a := s.requests[r].current;
          var number := if a in s.attempts then s.attempts[a].number else 0;
          var late := 0 < s.requests[r].meta.deadline <= now;
          && (code.InvalidState? <==> number >= p.maxAttempts) && (code.DeadlineExpired? <==> number < p.maxAttempts && late)
          && (code.Ok? <==> number < p.maxAttempts && !late)
          && (code.Ok? ==> Requeued(s, s', r, number + 1) && s'.attempts == s.attempts[s.nextAttempt := s'.attempts[s.nextAttempt]]))
    && if code.Ok? then
         s' == s.(requests := s'.requests, attempts := s'.attempts, index := s'.index, nextAttempt := s'.nextAttempt,
                  stats := s.stats.(retried := s.stats.retried + 1))
       else s' == s
  }

  lemma RetryExact(p: BatchPolicy, s: State, r: Id, now: int)
    ensures RetryAnswered(p, s, Retry(p, s, r, now).0, r, now, Retry(p, s, r, now).1)
  {
    hide Requeue;
    if r in s.requests {
      var a := s.requests[r].current;
      RequeueExact(s, r, (if a in s.attempts then s.attempts[a].number else 0) + 1);
    }
  }
}
