/** What a submission decides and what it leaves behind, in terms of the request, the
    limits and the counters. */
module Admission {
  import opened Types
  import opened Policy
  import opened Scheduler
  import opened Wide
  import opened Core
  import opened Trials
  import opened Ledger
  import opened Invariant
  import opened Network
  import Fairness
  import Identity

  // ---- the five answers ----

  predicate Anonymous(m: Metadata) { m.descriptor.model == [] || m.descriptor.revision == [] }

  predicate Late(m: Metadata, now: int) { m.deadline > 0 && m.deadline <= now }

  /** The size goes beyond a limit that is set. */
  predicate TooBig(b: Budget, m: Metadata) {
    0 < b.maxInput < m.input || 0 < b.maxOutput < m.output || 0 < b.maxWork < m.work || 0 < b.maxMemory < m.memory
  }

  /** The tenant has as much outstanding as it may have. */
  predicate Capped(f: FairnessPolicy, outstanding: map<U64, U64>, t: U64) {
    f.enabled && f.maxOutstanding != 0 && t in outstanding && outstanding[t] >= f.maxOutstanding
  }

  // ---- what is left behind ----

  /** One request with its first attempt, both in state `st`; it is queued at the end of
      its bucket, or nowhere. */
  predicate Recorded(s: State, s': State, m: Metadata, now: int, st: RequestState, outcome: U8, queued: bool) {
    var r, a, k := s.nextRequest, s.nextAttempt, Identity.KeyOf(m.descriptor);
    && s'.requests == s.requests[r := Request(m, st, a, [a], 0, now, k, queued)]
    && s'.attempts == s.attempts[a := Attempt(1, st, outcome, [], 0, 0)]
    && s'.nextRequest == r + 1 && s'.nextAttempt == a + 1
    && s'.index == (if !queued then s.index else if k in s.index then s.index[k := s.index[k] + [r]] else s.index[k := [r]])
  }

  /** Nothing else of the scheduler has changed, the outstanding work aside. */
  predicate Elsewhere(s: State, s': State) {
    && s'.batches == s.batches && s'.workers == s.workers && s'.forming == s.forming && s'.sealedOrder == s.sealedOrder
    && s'.served == s.served && s'.epoch == s.epoch && s'.nextBatch == s.nextBatch && s'.nextGeneration == s.nextGeneration
  }

  /** `t` has `work` more, modulo 2^64, and everybody else what they had. */
  predicate Charged(m: map<U64, U64>, m': map<U64, U64>, t: U64, work: U64) {
    && m'.Keys == m.Keys + {t} && m'[t] == ((if t in m then m[t] else 0) + work) % 0x1_0000_0000_0000_0000
    && forall u :: u in m && u != t ==> m'[u] == m[u]
  }

  /** Decision, records and counters for each of the five answers. */
  predicate Answered(p: BatchPolicy, s: State, s': State, m: Metadata, now: int, a: Admission) {
    var t := s.stats;
    && (a.RejectedIdentity? <==> Anonymous(m))
    && (a.ExpiredOnArrival? <==> !Anonymous(m) && Late(m, now))
    && (a.TooLarge? <==> !Anonymous(m) && !Late(m, now) && TooBig(p.budget, m))
    && (a.Deferred? <==> !Anonymous(m) && !Late(m, now) && !TooBig(p.budget, m) && Capped(p.fairness, s.outstanding, m.tenant))
    && Elsewhere(s, s') && (a.Admitted? || s'.outstanding == s.outstanding)
    && match a
       case RejectedIdentity => s' == s.(stats := t.(rejected := t.rejected + 1))
       case ExpiredOnArrival =>
         && Recorded(s, s', m, now, RequestState.Expired, 4, false)
         && s'.stats == t.(submitted := t.submitted + 1, expired := t.expired + 1)
       case TooLarge =>
         && Recorded(s, s', m, now, RequestState.Rejected, 2, false)
         && s'.stats == t.(submitted := t.submitted + 1, rejected := t.rejected + 1)
       case Deferred =>
         && Recorded(s, s', m, now, RequestState.Waiting, 0, false)
         && s'.stats == t.(submitted := t.submitted + 1, deferred := t.deferred + 1)
       case Admitted =>
         && Recorded(s, s', m, now, RequestState.Eligible, 0, true)
         && s'.stats == t.(submitted := t.submitted + 1, admitted := t.admitted + 1)
         && Charged(s.outstanding, s'.outstanding, m.tenant, m.work)
  }

  lemma Decides(p: BatchPolicy, s: State, m: Metadata, now: int)
    ensures var a := Admit(p, s, m, now);
            && (a.RejectedIdentity? <==> Anonymous(m))
            && (a.ExpiredOnArrival? <==> !Anonymous(m) && Late(m, now))
            && (a.TooLarge? <==> !Anonymous(m) && !Late(m, now) && TooBig(p.budget, m))
            && (a.Deferred? <==> !Anonymous(m) && !Late(m, now) && !TooBig(p.budget, m) && Capped(p.fairness, s.outstanding, m.tenant))
  {
  }

  lemma Charges(m: map<U64, U64>, t: U64, work: U64)
    ensures Charged(m, Fairness.NoteWork(m, t, work), t, work)
  {
  }

  /** The submission, whatever the state. */
  lemma SubmitExact(p: BatchPolicy, s: State, m: Metadata, now: int)
    ensures Answered(p, s, Submit(p, s, m, now), m, now, Admit(p, s, m, now))
  {
    hide Admit, Identity.KeyOf, Anonymous, Late, TooBig, Capped, Charged, Fairness.NoteWork;
    Decides(p, s, m, now);
    var none: seq<Id> := [];
    assert none + [s.nextRequest] == [s.nextRequest];
    Charges(s.outstanding, m.tenant, m.work);
  }

  // ---- in a run ----

  /** In a core run a request that arrives from a tenant at its cap waits outside every
      bucket. */
  lemma CappedIsDeferred(p: BatchPolicy, run: seq<System>, steps: seq<Step>, i: nat)
    requires IsRun(p, run, steps) && i < |steps| && steps[i].Submission?
    requires var m, now, s := steps[i].meta, steps[i].now, run[i].fabric;
             !Anonymous(m) && !Late(m, now) && !TooBig(p.budget, m) && Capped(p.fairness, s.outstanding, m.tenant)
    ensures var r, s' := run[i].fabric.nextRequest, run[i + 1].fabric;
            && r in s'.requests && s'.requests[r].state.Waiting? && s'.requests[r].meta == steps[i].meta
            && forall k :: k in s'.index ==> r !in s'.index[k]
  {
    hide Inv, Submit, Admit, Identity.KeyOf, Anonymous, Late, TooBig, Capped;
    var s := run[i].fabric;
    assert run[i + 1] == Next(p, run[i], steps[i]);
    SubmitExact(p, s, steps[i].meta, steps[i].now);
    RunInv(p, run, steps, i);
    NobodyAhead(p, s);
  }

  /** The next number is in no bucket. */
  lemma NobodyAhead(p: BatchPolicy, s: State)
    requires Inv(p, s)
    ensures forall k :: k in s.index ==> s.nextRequest !in s.index[k]
  {
    hide Keyed, AllSound, FormingKnown, CoreBut, TrialInv, LedgerInv, Bounded;
    forall k, r | k in s.index && r in s.index[k] ensures r < s.nextRequest {
      assert Candidate(p, s.requests, k, r);
    }
  }
}
