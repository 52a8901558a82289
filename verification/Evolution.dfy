/** What no step of a core run may undo: a two-state relation, transitive, from
    which the claims about whole runs follow. */
module Evolution {
  import opened Types
  import opened Policy
  import opened Scheduler
  import opened Trials

  function Rank(st: RequestState): nat {
    match st
    case Created => 5 case Eligible => 5 case Waiting => 5
    case Reserved => 4
    case Batched => 3 case SealedMember => 3
    case Dispatched => 2
    case Running => 1
    case _ => 0
  }

  /** Attempts left, then position in the life cycle, as one number. */
  function Life(p: BatchPolicy, q: Request): int {
    6 * (MaxTries(p) - |q.attempts|) + Rank(q.state)
  }

  predicate SameLife(q: Request, q': Request) {
    q'.state == q.state && q'.attempts == q.attempts && q'.current == q.current
  }

  /** The request stays itself; a terminal request keeps its state and attempts;
      every change of state or attempt uses up life. */
  predicate RequestEvolves(p: BatchPolicy, q: Request, q': Request) {
    && q'.meta == q.meta && q'.key == q.key && q'.submitted == q.submitted
    && q.attempts <= q'.attempts
    && (Terminal(q.state) ==> SameLife(q, q'))
    && (SameLife(q, q') || Life(p, q') < Life(p, q))
  }

  /** A finished attempt is never touched again. */
  predicate AttemptEvolves(a: Attempt, a': Attempt) {
    a'.number == a.number && (Terminal(a.state) ==> a' == a)
  }

  function Progress(st: BatchState): nat {
    match st
    case Forming => 0 case Sealed => 1 case Dispatched => 2 case Running => 3 case _ => 4
  }

  /** A batch keeps its stamps, moves forward, and from dispatch on keeps its list. */
  predicate BatchEvolves(b: Batch, b': Batch) {
    && b'.generation == b.generation && b'.epoch == b.epoch && b'.key == b.key
    && Progress(b.state) <= Progress(b'.state)
    && (Progress(b.state) >= 2 ==> b'.members == b.members)
    && (BatchTerminal(b.state) ==> b'.state == b.state)
  }

  predicate RequestsEvolve(p: BatchPolicy, rs: Requests, rs': Requests) {
    forall r :: r in rs ==> r in rs' && RequestEvolves(p, rs[r], rs'[r])
  }

  predicate AttemptsEvolve(at: Attempts, at': Attempts) {
    forall a :: a in at ==> a in at' && AttemptEvolves(at[a], at'[a])
  }

  predicate BatchesEvolve(bs: Batches, bs': Batches) {
    forall b :: b in bs ==> b in bs' && BatchEvolves(bs[b], bs'[b])
  }

  predicate Evolves(p: BatchPolicy, s: State, s': State) {
    && RequestsEvolve(p, s.requests, s'.requests)
    && AttemptsEvolve(s.attempts, s'.attempts)
    && BatchesEvolve(s.batches, s'.batches)
    && s.epoch <= s'.epoch && s.nextAttempt <= s'.nextAttempt
    && s.nextRequest <= s'.nextRequest && s.nextBatch <= s'.nextBatch
  }

  lemma RequestEvolvesTrans(p: BatchPolicy, a: Request, b: Request, c: Request)
    requires RequestEvolves(p, a, b) && RequestEvolves(p, b, c)
    ensures RequestEvolves(p, a, c)
  {
    hide Rank;
  }

  lemma EvolvesTrans(p: BatchPolicy, a: State, b: State, c: State)
    requires Evolves(p, a, b) && Evolves(p, b, c)
    ensures Evolves(p, a, c)
  {
    hide RequestEvolves;
    forall r | r in a.requests ensures r in c.requests && RequestEvolves(p, a.requests[r], c.requests[r]) {
      RequestEvolvesTrans(p, a.requests[r], b.requests[r], c.requests[r]);
    }
    forall x | x in a.attempts ensures x in c.attempts && AttemptEvolves(a.attempts[x], c.attempts[x]) {
      assert AttemptEvolves(a.attempts[x], b.attempts[x]) && AttemptEvolves(b.attempts[x], c.attempts[x]);
    }
    forall x | x in a.batches ensures x in c.batches && BatchEvolves(a.batches[x], c.batches[x]) {
      assert BatchEvolves(a.batches[x], b.batches[x]) && BatchEvolves(b.batches[x], c.batches[x]);
    }
  }

  lemma RequestsRefl(p: BatchPolicy, rs: Requests)
    ensures RequestsEvolve(p, rs, rs)
  {
  }

  lemma BatchesRefl(bs: Batches)
    ensures BatchesEvolve(bs, bs)
  {
  }

  lemma AttemptsRefl(at: Attempts)
    ensures AttemptsEvolve(at, at)
  {
  }

  lemma EvolvesRefl(p: BatchPolicy, s: State)
    ensures Evolves(p, s, s)
  {
    hide RequestsEvolve, AttemptsEvolve, BatchesEvolve;
    RequestsRefl(p, s.requests);
    AttemptsRefl(s.attempts);
    BatchesRefl(s.batches);
  }

  lemma RequestsUpdate(p: BatchPolicy, rs: Requests, r: Id, q: Request)
    requires r in rs ==> RequestEvolves(p, rs[r], q)
    ensures RequestsEvolve(p, rs, rs[r := q])
  {
    hide Life;
  }

  lemma AttemptsUpdate(at: Attempts, x: Id, a: Attempt)
    requires x in at ==> AttemptEvolves(at[x], a)
    ensures AttemptsEvolve(at, at[x := a])
  {
  }

  lemma BatchesUpdate(bs: Batches, x: Id, b: Batch)
    requires x in bs ==> BatchEvolves(bs[x], b)
    ensures BatchesEvolve(bs, bs[x := b])
  {
  }

  lemma BatchesTrans(a: Batches, b: Batches, c: Batches)
    requires BatchesEvolve(a, b) && BatchesEvolve(b, c)
    ensures BatchesEvolve(a, c)
  {
    forall x | x in a ensures x in c && BatchEvolves(a[x], c[x]) {
      assert BatchEvolves(a[x], b[x]) && BatchEvolves(b[x], c[x]);
    }
  }

  lemma AttemptsTrans(a: Attempts, b: Attempts, c: Attempts)
    requires AttemptsEvolve(a, b) && AttemptsEvolve(b, c)
    ensures AttemptsEvolve(a, c)
  {
    forall x | x in a ensures x in c && AttemptEvolves(a[x], c[x]) {
      assert AttemptEvolves(a[x], b[x]) && AttemptEvolves(b[x], c[x]);
    }
  }
}
