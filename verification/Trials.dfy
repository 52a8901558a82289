/** Attempts: numbered 1..n in order, owned by one request, all but the last
    failed, and the last one in step with its request. */
module Trials {
  import opened Types
  import opened Policy
  import opened Scheduler

  function MaxTries(p: BatchPolicy): nat { if p.maxAttempts > 1 then p.maxAttempts else 1 }

  predicate InStep(rst: RequestState, ast: RequestState) {
    if Terminal(rst) then ast == rst else !Terminal(ast)
  }

  predicate Tried(p: BatchPolicy, at: Attempts, q: Request) {
    && 1 <= |q.attempts| <= MaxTries(p)
    && q.current == q.attempts[|q.attempts| - 1]
    && (forall i :: 0 <= i < |q.attempts| ==> q.attempts[i] in at && at[q.attempts[i]].number == i + 1)
    && (forall i :: 0 <= i < |q.attempts| - 1 ==> at[q.attempts[i]].state.Failed?)
    && InStep(q.state, at[q.current].state)
  }

  predicate Tries(p: BatchPolicy, rs: Requests, at: Attempts) {
    forall r :: r in rs ==> Tried(p, at, rs[r])
  }

  predicate Apart(a: seq<Id>, b: seq<Id>) { forall x :: x in a ==> x !in b }

  predicate Owned(rs: Requests) {
    forall r, z :: r in rs && z in rs && r != z ==> Apart(rs[r].attempts, rs[z].attempts)
  }

  predicate TrialInv(p: BatchPolicy, s: State) { Tries(p, s.requests, s.attempts) && Owned(s.requests) }

  /** Requests change without starting or ending an attempt. */
  predicate SameTrial(q: Request, q': Request) {
    && q'.attempts == q.attempts && q'.current == q.current
    && (q'.state == q.state || (!Terminal(q.state) && !Terminal(q'.state)))
  }

  lemma TrialFrame(p: BatchPolicy, s: State, s': State)
    requires TrialInv(p, s) && s'.attempts == s.attempts && s'.requests.Keys == s.requests.Keys
    requires forall r :: r in s.requests ==> SameTrial(s.requests[r], s'.requests[r])
    ensures TrialInv(p, s')
  {
    hide Apart, Tried;
    forall r | r in s'.requests ensures Tried(p, s'.attempts, s'.requests[r]) {
      TriedSame(p, s.attempts, s.requests[r], s'.requests[r]);
    }
    forall r, z | r in s'.requests && z in s'.requests && r != z
      ensures Apart(s'.requests[r].attempts, s'.requests[z].attempts)
    {
      assert SameTrial(s.requests[r], s'.requests[r]) && SameTrial(s.requests[z], s'.requests[z]);
    }
  }

  lemma TriedSame(p: BatchPolicy, at: Attempts, q: Request, q': Request)
    requires Tried(p, at, q) && SameTrial(q, q')
    ensures Tried(p, at, q')
  {
  }

  lemma TriedFrame(p: BatchPolicy, at: Attempts, at': Attempts, q: Request)
    requires Tried(p, at, q) && forall a :: a in q.attempts ==> a in at && a in at' && at'[a] == at[a]
    ensures Tried(p, at', q)
  {
    forall i | 0 <= i < |q.attempts| ensures q.attempts[i] in at' && at'[q.attempts[i]] == at[q.attempts[i]] {
      assert q.attempts[i] in q.attempts;
    }
  }

  lemma TriedKnown(p: BatchPolicy, at: Attempts, q: Request, a: Id)
    requires Tried(p, at, q) && a in q.attempts
    ensures a in at
  {
  }

  /** A new request with its first attempt. */
  lemma TrialEnroll(p: BatchPolicy, rs: Requests, at: Attempts, r: Id, q: Request, aid: Id, a: Attempt)
    requires Tries(p, rs, at) && Owned(rs) && r !in rs && aid !in at
    requires q.attempts == [aid] && q.current == aid && a.number == 1 && InStep(q.state, a.state)
    ensures Tries(p, rs[r := q], at[aid := a]) && Owned(rs[r := q])
  {
    hide InStep, Tried;
    var rs', at' := rs[r := q], at[aid := a];
    forall z | z in rs ensures Tried(p, at', rs[z]) && aid !in rs[z].attempts {
      forall x | x in rs[z].attempts ensures x in at { TriedKnown(p, at, rs[z], x); }
      TriedFrame(p, at, at', rs[z]);
    }
    TriedFirst(p, at', q, aid);
  }

  lemma TriedFirst(p: BatchPolicy, at: Attempts, q: Request, aid: Id)
    requires q.attempts == [aid] && q.current == aid && aid in at && at[aid].number == 1 && InStep(q.state, at[aid].state)
    ensures Tried(p, at, q)
  {
  }

  /** A request and its current attempt end together. */
  lemma TrialEnd(p: BatchPolicy, rs: Requests, at: Attempts, r: Id, q: Request, a: Attempt)
    requires Tries(p, rs, at) && Owned(rs) && r in rs && rs[r].current in at
    requires q.attempts == rs[r].attempts && q.current == rs[r].current
    requires Terminal(q.state) && a.state == q.state && a.number == at[q.current].number
    ensures Tries(p, rs[r := q], at[q.current := a]) && Owned(rs[r := q])
  {
    hide Tried;
    var rs', at' := rs[r := q], at[q.current := a];
    TriedEnd(p, at, rs[r], q, a);
    forall z | z in rs && z != r ensures Tried(p, at', rs[z]) {
      assert Apart(rs[r].attempts, rs[z].attempts);
      TriedCurrent(p, at, rs[r]);
      forall x | x in rs[z].attempts ensures x in at { TriedKnown(p, at, rs[z], x); }
      TriedFrame(p, at, at', rs[z]);
    }
  }

  lemma TriedCurrent(p: BatchPolicy, at: Attempts, q: Request)
    requires Tried(p, at, q)
    ensures q.current in q.attempts && q.current in at
  {
  }

  lemma TriedEnd(p: BatchPolicy, at: Attempts, q: Request, q': Request, a: Attempt)
    requires Tried(p, at, q) && q.current in at
    requires q'.attempts == q.attempts && q'.current == q.current
    requires Terminal(q'.state) && a.state == q'.state && a.number == at[q.current].number
    ensures Tried(p, at[q.current := a], q')
  {
    hide Terminal;
  }

  /** A failed request gets the next attempt. */
  lemma TrialRequeue(p: BatchPolicy, rs: Requests, at: Attempts, r: Id, q: Request, aid: Id, a: Attempt)
    requires Tries(p, rs, at) && Owned(rs) && r in rs && aid !in at && rs[r].current in at
    requires rs[r].state.Failed? && at[rs[r].current].number < p.maxAttempts
    requires q.attempts == rs[r].attempts + [aid] && q.current == aid && q.state.Eligible?
    requires a.state.Eligible? && a.number == at[rs[r].current].number + 1
    ensures Tries(p, rs[r := q], at[aid := a]) && Owned(rs[r := q])
  {
    hide Tried;
    var rs', at' := rs[r := q], at[aid := a];
    forall z | z in rs ensures Tried(p, at', rs[z]) && aid !in rs[z].attempts {
      forall x | x in rs[z].attempts ensures x in at { TriedKnown(p, at, rs[z], x); }
      TriedFrame(p, at, at', rs[z]);
    }
    TriedRequeue(p, at', rs[r], q, aid);
  }

  lemma TriedRequeue(p: BatchPolicy, at: Attempts, q: Request, q': Request, aid: Id)
    requires Tried(p, at, q) && q.state.Failed? && at[q.current].number < p.maxAttempts && aid in at
    requires q'.attempts == q.attempts + [aid] && q'.current == aid && q'.state.Eligible?
    requires at[aid].state.Eligible? && at[aid].number == at[q.current].number + 1
    ensures Tried(p, at, q')
  {
  }
}
