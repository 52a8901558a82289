/** The full invariant of core runs, with what every step may not undo. */
module Invariant {
  import opened Types
  import opened Policy
  import opened Scheduler
  import opened Totals
  import opened Wide
  import opened Placement
  import opened Core
  import opened Reports
  import opened Trials
  import opened Ledger
  import opened Evolution
  import Identity

  /** Batch `x` may be open: its report is being applied. */
  ghost predicate InvBut(p: BatchPolicy, s: State, x: Id) {
    WideInv(p, s) && CoreBut(s, x) && TrialInv(p, s) && LedgerInv(s) && Bounded(p, s.requests, s.batches)
  }

  ghost predicate Inv(p: BatchPolicy, s: State) { InvBut(p, s, 0) }

  /** A step that keeps the invariant and moves forward. */
  ghost predicate Good(p: BatchPolicy, s: State, s': State) { Inv(p, s') && Evolves(p, s, s') }

  lemma GoodTrans(p: BatchPolicy, a: State, b: State, c: State)
    requires Good(p, a, b) && Good(p, b, c)
    ensures Good(p, a, c)
  {
    hide Inv, Evolves;
    EvolvesTrans(p, a, b, c);
  }

  lemma GoodRefl(p: BatchPolicy, s: State)
    requires Inv(p, s)
    ensures Good(p, s, s)
  {
    hide Inv, Evolves;
    EvolvesRefl(p, s);
  }

  lemma InitialInv(p: BatchPolicy)
    ensures Inv(p, INITIAL)
  {
    hide WideInv, CoreBut, TrialInv, LedgerInv;
    assert WideInv(p, INITIAL) by { InitialWide(p); }
    assert CoreBut(INITIAL, 0) by { InitialCore(); }
    assert TrialInv(p, INITIAL) by { InitialTrials(p); }
    assert LedgerInv(INITIAL) by { InitialLedger(); }
    assert Bounded(p, INITIAL.requests, INITIAL.batches);
  }

  lemma InitialWide(p: BatchPolicy)
    ensures WideInv(p, INITIAL)
  {
  }

  lemma InitialCore()
    ensures CoreBut(INITIAL, 0)
  {
  }

  lemma InitialTrials(p: BatchPolicy)
    ensures TrialInv(p, INITIAL)
  {
    hide Tried, Apart;
  }

  lemma InitialLedger()
    ensures LedgerInv(INITIAL)
  {
    hide Balanced;
    NothingBalanced(INITIAL.stats);
  }

  // ---- submission ----

  lemma EnrollTrial(p: BatchPolicy, s: State, meta: Metadata, key: Key, now: int, st: RequestState, outcome: U8, waiting: bool)
    requires Numbered(s) && TrialInv(p, s)
    ensures var s' := Enroll(s, meta, key, now, st, outcome, waiting);
            TrialInv(p, s') && Evolves(p, s, s')
  {
    hide Numbered, Tries, Owned, RequestEvolves, AttemptEvolves, RequestsEvolve, AttemptsEvolve, BatchesEvolve, IndexAdd, Bounded;
    var s' := Enroll(s, meta, key, now, st, outcome, waiting);
    NoBatchZero(s);
    TrialEnroll(p, s.requests, s.attempts, s.nextRequest, s'.requests[s.nextRequest], s.nextAttempt, s'.attempts[s.nextAttempt]);
    RequestsUpdate(p, s.requests, s.nextRequest, s'.requests[s.nextRequest]);
    AttemptsUpdate(s.attempts, s.nextAttempt, s'.attempts[s.nextAttempt]);
    BatchesRefl(s.batches);
  }

  lemma SubmitLedger(p: BatchPolicy, s: State, meta: Metadata, now: int)
    requires Numbered(s) && LedgerInv(s)
    ensures LedgerInv(Submit(p, s, meta, now))
  {
    hide Numbered, Balanced, Admit, CountAdmission, Submit, Bounded;
    var s', a := Submit(p, s, meta, now), Admit(p, s, meta, now);
    NoBatchZero(s);
    AdmissionCounted(s.stats, a, meta.work);
    SubmitShape(p, s, meta, now);
    if a.RejectedIdentity? {
      LedgerStats(s.requests, s.attempts, s.stats, s'.stats);
    } else {
      LedgerEnroll(s.requests, s.attempts, s.stats, s.nextRequest, s'.requests[s.nextRequest],
                   s.nextAttempt, s'.attempts[s.nextAttempt], s'.stats);
    }
  }

  lemma SubmitShape(p: BatchPolicy, s: State, meta: Metadata, now: int)
    ensures var s', a := Submit(p, s, meta, now), Admit(p, s, meta, now);
            && s'.stats == CountAdmission(s.stats, a) && s'.batches == s.batches
            && if a.RejectedIdentity? then s'.requests == s.requests && s'.attempts == s.attempts
               else
                 && s.nextRequest in s'.requests && s.nextAttempt in s'.attempts
                 && s'.requests == s.requests[s.nextRequest := s'.requests[s.nextRequest]]
                 && s'.attempts == s.attempts[s.nextAttempt := s'.attempts[s.nextAttempt]]
                 && s'.requests[s.nextRequest].meta == meta && s'.requests[s.nextRequest].state == AdmittedState(a)
                 && |s'.requests[s.nextRequest].attempts| == 1
  {
    hide IndexAdd, Admit, Identity.KeyOf, CountAdmission, Enroll;
    var a := Admit(p, s, meta, now);
    EnrollShape(s, meta, Identity.KeyOf(meta.descriptor), now, AdmittedState(a), AdmittedOutcome(a), a.Admitted?);
  }

  lemma EnrollShape(s: State, meta: Metadata, key: Key, now: int, st: RequestState, outcome: U8, waiting: bool)
    ensures var s' := Enroll(s, meta, key, now, st, outcome, waiting);
            && s'.batches == s.batches && s.nextRequest in s'.requests && s.nextAttempt in s'.attempts
            && s'.requests == s.requests[s.nextRequest := s'.requests[s.nextRequest]]
            && s'.attempts == s.attempts[s.nextAttempt := s'.attempts[s.nextAttempt]]
            && s'.requests[s.nextRequest].meta == meta && s'.requests[s.nextRequest].state == st
            && |s'.requests[s.nextRequest].attempts| == 1
  {
    hide IndexAdd;
  }

  lemma AdmissionCounted(t: Stats, a: Admission, work: U64)
    ensures a.RejectedIdentity? ==> SameTotals(t, CountAdmission(t, a))
    ensures !a.RejectedIdentity? ==> SameTotals(Credit(t.(submitted := t.submitted + 1), AdmittedState(a), work), CountAdmission(t, a))
  {
  }

  lemma LedgerStats(rs: Requests, at: Attempts, t: Stats, t': Stats)
    requires Balanced(rs, at, t) && SameTotals(t, t')
    ensures Balanced(rs, at, t')
  {
  }

  lemma SubmitGood(p: BatchPolicy, s: State, meta: Metadata, now: int)
    requires Inv(p, s)
    ensures Good(p, s, Submit(p, s, meta, now))
  {
    hide WideInv, Placed, Queued, FormingExact, Ordered, Tries, Owned, LedgerInv, Enroll, RequestsEvolve, AttemptsEvolve, BatchesEvolve, Identity.KeyOf, Bounded;
    SubmitWide(p, s, meta, now);
    WideNumbered(p, s);
    SubmitLedger(p, s, meta, now);
    var a, key := Admit(p, s, meta, now), Identity.KeyOf(meta.descriptor);
    if a.RejectedIdentity? {
      EvolvesRefl(p, s);
    } else {
      SubmitShape(p, s, meta, now);
      BoundedEnroll(p, s.requests, s.batches, s.nextRequest, Submit(p, s, meta, now).requests[s.nextRequest]);
      EnrollCore(s, meta, key, now, AdmittedState(a), AdmittedOutcome(a), a.Admitted?);
      EnrollTrial(p, s, meta, key, now, AdmittedState(a), AdmittedOutcome(a), a.Admitted?);
    }
  }

  lemma WideNumbered(p: BatchPolicy, s: State)
    requires WideInv(p, s)
    ensures Numbered(s)
  {
  }

  // ---- steps that leave attempts and counters alone ----

  /** Live requests move among live states; batches move forward. */
  predicate Shifts(p: BatchPolicy, q: Request, q': Request) {
    RequestEvolves(p, q, q') && SameTrial(q, q')
  }

  lemma ShiftGood(p: BatchPolicy, s: State, s': State)
    requires TrialInv(p, s) && LedgerInv(s) && s'.attempts == s.attempts && s'.requests.Keys == s.requests.Keys
    requires forall r :: r in s.requests ==> Shifts(p, s.requests[r], s'.requests[r])
    requires SameTotals(s.stats, s'.stats)
    ensures TrialInv(p, s') && LedgerInv(s')
    ensures RequestsEvolve(p, s.requests, s'.requests)
  {
    hide RequestEvolves, Tries, Owned, Balanced, SameTotals, Bounded;
    forall r | r in s.requests
      ensures SameTrial(s.requests[r], s'.requests[r]) && SameCount(s.requests[r], s'.requests[r])
              && RequestEvolves(p, s.requests[r], s'.requests[r])
    {
      ShiftParts(p, s.requests[r], s'.requests[r]);
    }
    TrialFrame(p, s, s');
    LedgerFrame(s.requests, s'.requests, s.attempts, s.stats);
    LedgerStats(s'.requests, s.attempts, s.stats, s'.stats);
  }

  lemma ShiftParts(p: BatchPolicy, q: Request, q': Request)
    requires Shifts(p, q, q')
    ensures SameTrial(q, q') && SameCount(q, q') && RequestEvolves(p, q, q')
  {
  }

  lemma ShiftRefl(p: BatchPolicy, q: Request)
    ensures Shifts(p, q, q)
  {
  }

  lemma PlaceBounded(p: BatchPolicy, s: State, bid: Id, key: Key, rid: Id)
    requires bid in s.batches && s.batches[bid].state.Forming? && rid in s.requests && Bounded(p, s.requests, s.batches)
    requires AllowsAdd(p.budget, s.batches[bid].accum, Load(s.requests[rid].meta))
    ensures Bounded(p, Place(s, bid, key, rid).requests, Place(s, bid, key, rid).batches)
  {
    hide IndexRemove, CountOk, Screened, AllowsAdd, Grown, Fairness.NoteWork;
    var s' := Place(s, bid, key, rid);
    CountedGrow(p, s.batches[bid], rid, s.requests[rid].meta);
    TriesUpdate(s.requests, rid, s'.requests[rid]);
    BoundedBatch(p, s.requests, s.batches, s'.requests, bid, s'.batches[bid]);
  }

  /** Placing, when the request is in the index under the batch's key. */
  lemma PlaceGood(p: BatchPolicy, s: State, bid: Id, key: Key, rid: Id)
    requires Inv(p, s) && bid in s.batches && s.batches[bid].state.Forming? && s.batches[bid].key == key
    requires rid in s.requests && s.requests[rid].inWaiting && s.requests[rid].key == key
    requires Candidate(p, s.requests, key, rid) && AllowsAdd(p.budget, s.batches[bid].accum, Load(s.requests[rid].meta))
    ensures Good(p, s, Place(s, bid, key, rid))
  {
    hide WideInv, Placed, Queued, FormingExact, Ordered, TrialInv, LedgerInv, Candidate, IndexRemove, BatchesEvolve, RequestsEvolve, AttemptsEvolve, Bounded;
    var s' := Place(s, bid, key, rid);
    WideNumbered(p, s);
    PlaceWide(p, s, bid, key, rid);
    PlaceCore(s, bid, key, rid);
    PlaceBounded(p, s, bid, key, rid);
    WaitsOf(s, rid);
    forall r | r in s.requests ensures Shifts(p, s.requests[r], s'.requests[r]) { ShiftRefl(p, s.requests[r]); }
    ShiftGood(p, s, s');
    BatchesUpdate(s.batches, bid, s'.batches[bid]);
    AttemptsRefl(s.attempts);
  }

  /** Timing fields of a batch. */
  lemma ReshapeGood(p: BatchPolicy, s: State, bid: Id, b: Batch)
    requires Inv(p, s) && bid in s.batches
    requires b == s.batches[bid].(allowedWait := b.allowedWait, formed := b.formed)
    ensures Good(p, s, s.(batches := s.batches[bid := b]))
  {
    hide WideInv, CoreBut, Tries, Owned, Balanced, RequestsEvolve, AttemptsEvolve, BatchesEvolve, SameMetas, Bounded;
    var s' := s.(batches := s.batches[bid := b]);
    ReshapeWide(p, s, bid, b);
    ReshapeCore(s, 0, bid, b);
    TriesRefl(s.requests);
    CountsUpdate(s.batches, bid, b);
    BoundedFrame(p, s.requests, s.batches, s.requests, s'.batches);
    BatchesUpdate(s.batches, bid, b);
    RequestsRefl(p, s.requests);
    AttemptsRefl(s.attempts);
  }

  /** Changes of one batch outside list, totals and key. */
  lemma ReshapeWide(p: BatchPolicy, s: State, bid: Id, b: Batch)
    requires WideInv(p, s) && bid in s.batches
    requires b.members == s.batches[bid].members && b.accum == s.batches[bid].accum && b.key == s.batches[bid].key
    requires b.descriptor == s.batches[bid].descriptor
    ensures WideInv(p, s.(batches := s.batches[bid := b]))
  {
    hide Sound, Keyed, IndexKnown, FormingKnown;
    SoundReshape(p, s.requests, s.batches[bid], b);
    SoundUpdate(p, s.requests, s.batches, s.forming, bid, b);
  }

  lemma SoundReshape(p: BatchPolicy, rs: Requests, b: Batch, b': Batch)
    requires Sound(p, rs, b) && b'.members == b.members && b'.accum == b.accum && b'.key == b.key
    requires b'.descriptor == b.descriptor
    ensures Sound(p, rs, b')
  {
    hide Identity.KeyOf;
  }

  lemma OpenFormingGood(p: BatchPolicy, s: State, key: Key, now: int)
    requires Inv(p, s) && key !in s.forming
    ensures Good(p, s, OpenForming(s, key, now))
  {
    hide WideInv, CoreBut, Tries, Owned, Balanced, RequestsEvolve, AttemptsEvolve, BatchesEvolve, Bounded;
    var s' := OpenForming(s, key, now);
    WideNumbered(p, s);
    NoBatchZero(s);
    OpenFormingWide(p, s, key, now);
    OpenFormingCore(s, key, now);
    TriesRefl(s.requests);
    BoundedBatch(p, s.requests, s.batches, s.requests, s.nextBatch, s'.batches[s.nextBatch]);
    BatchesUpdate(s.batches, s.nextBatch, s'.batches[s.nextBatch]);
    RequestsRefl(p, s.requests);
    AttemptsRefl(s.attempts);
  }

  // ---- stages ----

  lemma StageShifts(p: BatchPolicy, rs: Requests, members: seq<Id>, from: RequestState, to: RequestState, r: Id)
    requires r in rs
    requires (from.Reserved? && to.Batched?) || (from.Batched? && to.Dispatched?) || (from.Dispatched? && to.Running?)
    ensures Shifts(p, rs[r], Advance(rs, members, from, to)[r])
  {
  }

  lemma AdvanceSame(rs: Requests, members: seq<Id>, from: RequestState, to: RequestState)
    ensures var rs' := Advance(rs, members, from, to); SameMetas(rs, rs') && rs'.Keys == rs.Keys
  {
  }

  /** Wide facts for a change of states only. */
  lemma StageWide(p: BatchPolicy, s: State, s': State, bid: Id)
    requires WideInv(p, s) && bid in s.batches && bid in s'.batches
    requires SameMetas(s.requests, s'.requests) && s'.requests.Keys == s.requests.Keys
    requires s'.batches == s.batches[bid := s'.batches[bid]]
    requires s'.batches[bid].members == s.batches[bid].members && s'.batches[bid].accum == s.batches[bid].accum
    requires s'.batches[bid].key == s.batches[bid].key && s'.batches[bid].descriptor == s.batches[bid].descriptor
    requires s'.index == s.index && (s'.forming == s.forming || s'.forming == s.forming - {s.batches[bid].key})
    requires s'.attempts == s.attempts
    requires s'.nextRequest == s.nextRequest && s'.nextAttempt == s.nextAttempt && s'.nextBatch == s.nextBatch
    ensures WideInv(p, s')
  {
    hide WideInv, SameMetas;
    WideFrame(p, s, s');
  }

  lemma SealGood(p: BatchPolicy, s: State, bid: Id)
    requires Inv(p, s)
    ensures Good(p, s, Seal(s, bid).0)
  {
    hide WideInv, CoreBut, TrialInv, LedgerInv, RequestsEvolve, AttemptsEvolve, BatchesEvolve, SameMetas, Advance, Shifts, Bounded;
    var (s', ok) := Seal(s, bid);
    if !ok { EvolvesRefl(p, s); } else {
      var ms := s.batches[bid].members;
      WideNumbered(p, s);
      SealCore(s, bid);
      AdvanceTries(s.requests, ms, RequestState.Reserved, RequestState.Batched);
      CountsUpdate(s.batches, bid, s'.batches[bid]);
      BoundedFrame(p, s.requests, s.batches, s'.requests, s'.batches);
      AdvanceSame(s.requests, ms, RequestState.Reserved, RequestState.Batched);
      StageWide(p, s, s', bid);
      forall r | r in s.requests ensures Shifts(p, s.requests[r], s'.requests[r]) {
        StageShifts(p, s.requests, ms, RequestState.Reserved, RequestState.Batched, r);
      }
      ShiftGood(p, s, s');
      BatchesUpdate(s.batches, bid, s'.batches[bid]);
      AttemptsRefl(s.attempts);
    }
  }

  lemma HandGood(p: BatchPolicy, s: State, bid: Id, worker: Id, boot: Id)
    requires Inv(p, s) && bid in s.batches && s.batches[bid].state.Sealed?
    ensures Good(p, s, Hand(s, bid, worker, boot))
  {
    hide WideInv, CoreBut, TrialInv, LedgerInv, RequestsEvolve, AttemptsEvolve, BatchesEvolve, SameMetas, Advance, Shifts, Bounded;
    var s', ms := Hand(s, bid, worker, boot), s.batches[bid].members;
    WideNumbered(p, s);
    HandCore(s, bid, worker, boot);
    AdvanceTries(s.requests, ms, RequestState.Batched, RequestState.Dispatched);
    CountsUpdate(s.batches, bid, s'.batches[bid]);
    BoundedFrame(p, s.requests, s.batches, s'.requests, s'.batches);
    AdvanceSame(s.requests, ms, RequestState.Batched, RequestState.Dispatched);
    StageWide(p, s, s', bid);
    forall r | r in s.requests ensures Shifts(p, s.requests[r], s'.requests[r]) {
      StageShifts(p, s.requests, ms, RequestState.Batched, RequestState.Dispatched, r);
    }
    ShiftGood(p, s, s');
    BatchesUpdate(s.batches, bid, s'.batches[bid]);
    AttemptsRefl(s.attempts);
  }

  lemma StartGood(p: BatchPolicy, s: State, bid: Id)
    requires Inv(p, s) && bid in s.batches && s.batches[bid].state.Dispatched?
    ensures Good(p, s, Start(s, bid))
  {
    hide WideInv, CoreBut, TrialInv, LedgerInv, RequestsEvolve, AttemptsEvolve, BatchesEvolve, SameMetas, Advance, Shifts, Bounded;
    var s', ms := Start(s, bid), s.batches[bid].members;
    WideNumbered(p, s);
    StartCore(s, bid);
    AdvanceTries(s.requests, ms, RequestState.Dispatched, RequestState.Running);
    CountsUpdate(s.batches, bid, s'.batches[bid]);
    BoundedFrame(p, s.requests, s.batches, s'.requests, s'.batches);
    AdvanceSame(s.requests, ms, RequestState.Dispatched, RequestState.Running);
    StageWide(p, s, s', bid);
    forall r | r in s.requests ensures Shifts(p, s.requests[r], s'.requests[r]) {
      StageShifts(p, s.requests, ms, RequestState.Dispatched, RequestState.Running, r);
    }
    ShiftGood(p, s, s');
    BatchesUpdate(s.batches, bid, s'.batches[bid]);
    AttemptsRefl(s.attempts);
  }

  lemma MergeBatches(p: BatchPolicy, s: State, aid: Id, bid: Id)
    requires FormingExact(s.batches, s.forming) && Merge(p, s, aid, bid).1.Ok?
    ensures BatchesEvolve(s.batches, Merge(p, s, aid, bid).0.batches)
  {
    hide FormingExact, Tally, Rehome, CanMerge;
    MergedAreSealed(p, s, aid, bid);
    var bs' := Merge(p, s, aid, bid).0.batches;
    BatchesUpdate(s.batches, aid, bs'[aid]);
    BatchesUpdate(s.batches[aid := bs'[aid]], bid, bs'[bid]);
    BatchesTrans(s.batches, s.batches[aid := bs'[aid]], bs');
  }

  lemma MergeBounded(p: BatchPolicy, s: State, aid: Id, bid: Id)
    requires WideInv(p, s) && FormingExact(s.batches, s.forming) && Bounded(p, s.requests, s.batches) && Merge(p, s, aid, bid).1.Ok?
    ensures Bounded(p, Merge(p, s, aid, bid).0.requests, Merge(p, s, aid, bid).0.batches)
  {
    hide Numbered, Keyed, IndexKnown, FormingKnown, FormingExact, CountOk, Screened, Rehome, Absorbed, CanMerge, HeldAll, Usage, Wrap;
    var s', a, b := Merge(p, s, aid, bid).0, s.batches[aid], s.batches[bid];
    MergedAreSealed(p, s, aid, bid);
    RehomeTries(s.requests, b.members, aid);
    RehomeSame(s.requests, b.members, aid);
    SoundRehomed(p, s.requests, s'.requests, a);
    SoundRehomed(p, s.requests, s'.requests, b);
    RootedPair(p, s, aid, bid);
    CountedJoin(p, s'.requests, a, b, bid);
    BoundedBatch(p, s.requests, s.batches, s'.requests, aid, s'.batches[aid]);
    assert CountOk(p, Retired(b)) by { assert CountOk(p, b); RetiredCounted(p, b); }
    TriesRefl(s'.requests);
    BoundedBatch(p, s'.requests, s.batches[aid := s'.batches[aid]], s'.requests, bid, s'.batches[bid]);
  }

  lemma RootedPair(p: BatchPolicy, s: State, aid: Id, bid: Id)
    requires WideInv(p, s) && Bounded(p, s.requests, s.batches) && aid in s.batches && bid in s.batches
    ensures Rooted(s.batches[aid]) && Rooted(s.batches[bid]) && bid != 0
  {
    hide Keyed, AllSound, IndexKnown, FormingKnown, Screened;
    assert CountOk(p, s.batches[aid]) && CountOk(p, s.batches[bid]);
  }

  lemma RetiredCounted(p: BatchPolicy, b: Batch)
    requires CountOk(p, b)
    ensures CountOk(p, Retired(b))
  {
  }

  lemma SoundRehomed(p: BatchPolicy, rs: Requests, rs': Requests, b: Batch)
    requires Sound(p, rs, b) && SameMetas(rs, rs')
    ensures b.accum == Tally(rs', b.members) && forall m :: m in b.members ==> m in rs'
  {
    hide Usage, Wrap, HeldAll, Screened, Slips, Tally;
    SoundFrame(p, rs, rs', b);
    TallyIsUsage(rs', b.members);
    forall m | m in b.members ensures m in rs' { assert Candidate(p, rs', b.key, m); }
  }

  lemma MergeGood(p: BatchPolicy, s: State, aid: Id, bid: Id)
    requires Inv(p, s)
    ensures Good(p, s, Merge(p, s, aid, bid).0)
  {
    hide WideInv, Placed, Queued, FormingExact, Ordered, TrialInv, LedgerInv, RequestsEvolve, AttemptsEvolve, BatchesEvolve, CanMerge, Recompute, Bounded;
    var (s', code) := Merge(p, s, aid, bid);
    if !code.Ok? { EvolvesRefl(p, s); } else {
      WideNumbered(p, s);
      MergeWide(p, s, aid, bid);
      MergeCore(p, s, aid, bid);
      MergeBatches(p, s, aid, bid);
      MergeBounded(p, s, aid, bid);
      ShiftGood(p, s, s');
      AttemptsRefl(s.attempts);
    }
  }

  // ---- endings ----

  /** A live request and its current attempt reach state `q.state` together. */
  lemma EndGood(p: BatchPolicy, s: State, s': State, rid: Id, q: Request, a: Attempt)
    requires TrialInv(p, s) && LedgerInv(s) && rid in s.requests && !Terminal(s.requests[rid].state)
    requires q == s.requests[rid].(state := q.state, inWaiting := q.inWaiting, batch := q.batch) && Terminal(q.state)
    requires q.current in s.attempts
    requires s'.requests == s.requests[rid := q] && s'.attempts == s.attempts[q.current := a]
    requires a.state == q.state && a.number == s.attempts[q.current].number
    requires SameTotals(Credit(s.stats, q.state, q.meta.work), s'.stats)
    ensures TrialInv(p, s') && LedgerInv(s')
    ensures RequestsEvolve(p, s.requests, s'.requests) && AttemptsEvolve(s.attempts, s'.attempts)
  {
    hide Tries, Owned, Balanced, RequestsEvolve, AttemptsEvolve, SameTotals, Credit, Bounded;
    TriedOf(p, s, rid);
    TrialEnd(p, s.requests, s.attempts, rid, q, a);
    LedgerEnd(s.requests, s.attempts, s'.attempts, s.stats, rid, q, s'.stats);
    EndEvolves(p, s.requests[rid], q);
    RequestsUpdate(p, s.requests, rid, q);
    AttemptsUpdate(s.attempts, q.current, a);
  }

  lemma TriedOf(p: BatchPolicy, s: State, rid: Id)
    requires TrialInv(p, s) && rid in s.requests
    ensures Tried(p, s.attempts, s.requests[rid])
    ensures s.requests[rid].current in s.attempts
  {
  }

  lemma EndEvolves(p: BatchPolicy, q: Request, q': Request)
    requires !Terminal(q.state) && Terminal(q'.state)
    requires q' == q.(state := q'.state, inWaiting := q'.inWaiting, batch := q'.batch)
    ensures RequestEvolves(p, q, q')
  {
  }

  /** The request keeps its size and key. */
  lemma EndWide(p: BatchPolicy, s: State, s': State, rid: Id)
    requires WideInv(p, s) && rid in s.requests && rid in s'.requests
    requires s'.requests == s.requests[rid := s'.requests[rid]]
    requires s'.requests[rid].meta == s.requests[rid].meta && s'.requests[rid].key == s.requests[rid].key
    requires s'.requests[rid].attempts == s.requests[rid].attempts
    requires SameLists(s.batches, s'.batches) && SubIndex(s'.index, s.index) && s'.forming == s.forming
    requires s'.attempts.Keys == s.attempts.Keys
    requires s'.nextRequest == s.nextRequest && s'.nextAttempt == s.nextAttempt && s'.nextBatch == s.nextBatch
    ensures WideInv(p, s')
  {
    hide WideInv, SameMetas, SameLists, SubIndex;
    SameMetasUpdate(s.requests, rid, s'.requests[rid]);
    WideFrame(p, s, s');
  }

  function EndedWaiting(s: State, rid: Id, st: RequestState, outcome: U8, now: int): State
    requires rid in s.requests
  {
    var ix := if s.requests[rid].inWaiting then IndexRemove(s.index, s.requests[rid].key, rid) else s.index;
    EndWaiting(s.(index := ix), rid, st, outcome, now)
  }

  lemma EndWaitingGood(p: BatchPolicy, s: State, rid: Id, st: RequestState, outcome: U8, now: int)
    requires rid in s.requests && WaitingState(s.requests[rid].state) && (st.Cancelled? || st.Expired?) && Inv(p, s)
    ensures Good(p, s, EndedWaiting(s, rid, st, outcome, now))
  {
    hide WideInv, CoreBut, TrialInv, LedgerInv, IndexRemove, RequestsEvolve, AttemptsEvolve, BatchesEvolve, SubIndex, Bounded;
    var ix := if s.requests[rid].inWaiting then IndexRemove(s.index, s.requests[rid].key, rid) else s.index;
    var s' := EndWaiting(s.(index := ix), rid, st, outcome, now);
    WideNumbered(p, s);
    EndWaitingCore(s, rid, st, outcome, now);
    TriedOf(p, s, rid);
    EndGood(p, s, s', rid, s'.requests[rid], s'.attempts[s.requests[rid].current]);
    IndexRemoveSub(s.index, s.requests[rid].key, rid);
    SubIndexRefl(s.index);
    EndWide(p, s, s', rid);
    TriesUpdate(s.requests, rid, s'.requests[rid]);
    CountsRefl(s.batches);
    BoundedFrame(p, s.requests, s.batches, s'.requests, s'.batches);
    BatchesRefl(s.batches);
  }

  lemma SubIndexRefl(ix: Index)
    ensures SubIndex(ix, ix)
  {
  }

  lemma CancelPlacedGood(p: BatchPolicy, s: State, rid: Id, now: int)
    requires Inv(p, s) && rid in s.requests && InBatch(s.requests[rid].state)
    requires s.requests[rid].batch in s.batches && !s.batches[s.requests[rid].batch].state.Forming?
    ensures Good(p, s, CancelPlaced(s, rid, now))
  {
    hide WideInv, CoreBut, TrialInv, LedgerInv, RequestsEvolve, AttemptsEvolve, BatchesEvolve, SubIndex, Bounded;
    var s', bid := CancelPlaced(s, rid, now), s.requests[rid].batch;
    WideNumbered(p, s);
    CancelPlacedCore(s, rid, now);
    TriedOf(p, s, rid);
    EndGood(p, s, s', rid, s'.requests[rid], s'.attempts[s.requests[rid].current]);
    SubIndexRefl(s.index);
    EndWide(p, s, s', rid);
    TriesUpdate(s.requests, rid, s'.requests[rid]);
    CountsUpdate(s.batches, bid, s'.batches[bid]);
    BoundedFrame(p, s.requests, s.batches, s'.requests, s'.batches);
    BatchesUpdate(s.batches, bid, s'.batches[bid]);
  }

  lemma CancelFormingBounded(p: BatchPolicy, s: State, rid: Id, now: int)
    requires WideInv(p, s) && rid in s.requests && s.requests[rid].batch in s.batches
    requires s.batches[s.requests[rid].batch].state.Forming? && Bounded(p, s.requests, s.batches)
    ensures Bounded(p, CancelForming(p, s, rid, now).requests, CancelForming(p, s, rid, now).batches)
  {
    hide Numbered, Keyed, IndexKnown, FormingKnown, CountOk, Screened, Shrunk, HeldAll, Usage, Wrap, Slips;
    var s', bid := CancelForming(p, s, rid, now), s.requests[rid].batch;
    var b := s.batches[bid];
    assert Sound(p, s.requests, b) && CountOk(p, b);
    forall m | m in b.members ensures m in s.requests { assert Candidate(p, s.requests, b.key, m); }
    CountedShrink(p, s.requests, b, rid, now);
    TriesUpdate(s.requests, rid, s'.requests[rid]);
    BoundedBatch(p, s.requests, s.batches, s'.requests, bid, s'.batches[bid]);
  }

  lemma CancelFormingGood(p: BatchPolicy, s: State, rid: Id, now: int)
    requires Inv(p, s) && rid in s.requests && InBatch(s.requests[rid].state)
    requires s.requests[rid].batch in s.batches && s.batches[s.requests[rid].batch].state.Forming?
    ensures Good(p, s, CancelForming(p, s, rid, now))
  {
    hide WideInv, CoreBut, TrialInv, LedgerInv, RequestsEvolve, AttemptsEvolve, BatchesEvolve, AllowedWait, Recompute, Bounded;
    var s', bid := CancelForming(p, s, rid, now), s.requests[rid].batch;
    WideNumbered(p, s);
    CancelFormingWide(p, s, rid, now);
    CancelFormingCore(p, s, rid, now);
    CancelFormingBounded(p, s, rid, now);
    TriedOf(p, s, rid);
    EndGood(p, s, s', rid, s'.requests[rid], s'.attempts[s.requests[rid].current]);
    CancelFormingBatch(p, s, rid, now);
  }

  lemma CancelFormingBatch(p: BatchPolicy, s: State, rid: Id, now: int)
    requires rid in s.requests && s.requests[rid].batch in s.batches
    requires s.batches[s.requests[rid].batch].state.Forming?
    ensures BatchesEvolve(s.batches, CancelForming(p, s, rid, now).batches)
  {
    hide Tally, MinWait;
    var bid := s.requests[rid].batch;
    BatchesUpdate(s.batches, bid, CancelForming(p, s, rid, now).batches[bid]);
  }

  lemma CancelGood(p: BatchPolicy, s: State, rid: Id, now: int)
    requires Inv(p, s)
    ensures Good(p, s, Cancel(p, s, rid, now).0)
  {
    hide Inv, Good, CancelForming, CancelPlaced, EndWaiting, IndexRemove;
    GoodRefl(p, s);
    if rid in s.requests && !Terminal(s.requests[rid].state) {
      var r := s.requests[rid];
      if !InBatch(r.state) {
        InvLive(p, s, rid);
        EndWaitingGood(p, s, rid, RequestState.Cancelled, 3, now);
      } else if r.batch in s.batches && s.batches[r.batch].state.Forming? {
        CancelFormingGood(p, s, rid, now);
      } else if r.batch in s.batches {
        CancelPlacedGood(p, s, rid, now);
      }
    }
  }

  lemma InvLive(p: BatchPolicy, s: State, rid: Id)
    requires Inv(p, s) && rid in s.requests && !Terminal(s.requests[rid].state) && !InBatch(s.requests[rid].state)
    ensures WaitingState(s.requests[rid].state)
  {
    hide WideInv, TrialInv, LedgerInv, Bounded;
    LiveStates(s, rid);
  }

  // ---- reports ----

  lemma SettleParts(p: BatchPolicy, s: State, x: Id, n0: Id, rid: Id, aid: Id, mc: MemberCompletion, now: int)
    requires InvBut(p, s, x) && x in s.batches && Open(s.requests, x, s.batches[x], n0) && x != 0
    requires rid in s.requests && s.requests[rid].current == aid && s.requests[rid].batch == x
    requires InBatch(s.requests[rid].state) && aid in s.attempts && mc.status <= 4
    ensures var s' := Settle(s, rid, aid, OutcomeState(mc.status), mc, now)
                        .(stats := CountOutcome(s.stats, mc.status, s.requests[rid].meta.work));
            && InvBut(p, s', x) && Evolves(p, s, s')
            && x in s'.batches && Open(s'.requests, x, s'.batches[x], n0)
            && s'.batches[x].members == s.batches[x].members
  {
    hide WideInv, Placed, Queued, FormingExact, Ordered, TrialInv, LedgerInv, RequestsEvolve, AttemptsEvolve, BatchesEvolve, SubIndex, Open, Add64, Bounded;
    var s' := Settle(s, rid, aid, OutcomeState(mc.status), mc, now)
                .(stats := CountOutcome(s.stats, mc.status, s.requests[rid].meta.work));
    SettleCore(s, x, n0, rid, aid, OutcomeState(mc.status), mc, now);
    EndGood(p, s, s', rid, s'.requests[rid], s'.attempts[aid]);
    SubIndexRefl(s.index);
    EndWide(p, s, s', rid);
    TriesUpdate(s.requests, rid, s'.requests[rid]);
    CountsUpdate(s.batches, x, s'.batches[x]);
    BoundedFrame(p, s.requests, s.batches, s'.requests, s'.batches);
    BatchesUpdate(s.batches, x, s'.batches[x]);
  }

  lemma OutstandingBut(p: BatchPolicy, s: State, x: Id, o: map<U64, U64>)
    requires InvBut(p, s, x)
    ensures InvBut(p, s.(outstanding := o), x)
  {
    hide WideInv, TrialInv, Balanced, Placed, Queued, FormingExact, Ordered, Bounded;
    WideStats(p, s, s.stats, s.served, o);
    hide Tries, Owned, Bounded;
    assert TrialInv(p, s.(outstanding := o)) by { TrialSame(p, s, s.(outstanding := o)); }
  }

  lemma TrialSame(p: BatchPolicy, s: State, s': State)
    requires TrialInv(p, s) && s'.requests == s.requests && s'.attempts == s.attempts
    ensures TrialInv(p, s')
  {
    hide Tries, Owned, Bounded;
  }

  /** The invariant part of a requeue; together with the ending before it, the
      request uses up one attempt. */
  predicate FailedMember(p: BatchPolicy, s: State, x: Id, rid: Id) {
    && x in s.batches && rid in s.requests && s.requests[rid].batch == x && s.requests[rid].state.Failed?
    && s.requests[rid].current in s.attempts && s.attempts[s.requests[rid].current].number < p.maxAttempts
    && rid in s.batches[x].members
  }

  function Requeued(p: BatchPolicy, s: State, x: Id, rid: Id): State
    requires FailedMember(p, s, x, rid)
  {
    Requeue(s, rid, s.attempts[s.requests[rid].current].number + 1)
  }

  ghost predicate StillOpen(p: BatchPolicy, s: State, s': State, x: Id, n0: Id) {
    && InvBut(p, s', x)
    && x in s.batches && x in s'.batches && Open(s'.requests, x, s'.batches[x], n0)
    && s'.batches[x].members == s.batches[x].members
  }

  lemma RequeueParts(p: BatchPolicy, s: State, x: Id, n0: Id, rid: Id)
    requires FailedMember(p, s, x, rid) && n0 <= s.nextAttempt && Open(s.requests, x, s.batches[x], n0) && InvBut(p, s, x)
    ensures StillOpen(p, s, Requeued(p, s, x, rid), x, n0)
  {
    hide Placed, Queued, FormingExact, Ordered, Tries, Owned, Balanced, Open, Sound, Keyed, IndexKnown, FormingKnown, IndexAdd, Slips, Bounded;
    var number := s.attempts[s.requests[rid].current].number + 1;
    var s' := Requeue(s, rid, number);
    NoBatchZero(s);
    MemberIsCandidate(p, s.requests, s.batches[x], rid);
    BoundedRequeue(p, s.requests, s.batches, s.batches[x].key, rid, s'.requests[rid]);
    RequeueWide(p, s, rid, number);
    RequeueCore(s, x, n0, rid, number);
    TrialRequeue(p, s.requests, s.attempts, rid, s'.requests[rid], s.nextAttempt, s'.attempts[s.nextAttempt]);
    LedgerRequeue(s.requests, s.attempts, s.stats, rid, s'.requests[rid], s.nextAttempt, s'.attempts[s.nextAttempt]);
  }

  lemma MemberIsCandidate(p: BatchPolicy, rs: Requests, b: Batch, m: Id)
    requires Sound(p, rs, b) && m in b.members
    ensures Candidate(p, rs, b.key, m)
  {
  }

  /** The whole outcome seen from before: a retry starts one attempt later. */
  lemma RequeueEvolves(p: BatchPolicy, s: State, s1: State, rid: Id, number: nat)
    requires Evolves(p, s, s1) && rid in s.requests && rid in s1.requests
    requires s1.requests == s.requests[rid := s1.requests[rid]] && !Terminal(s.requests[rid].state)
    requires s1.requests[rid] == s.requests[rid].(state := RequestState.Failed)
    requires s1.nextAttempt !in s1.attempts
    ensures Evolves(p, s, Requeue(s1, rid, number))
  {
    hide AttemptsEvolve, BatchesEvolve, IndexAdd;
    var s' := Requeue(s1, rid, number);
    assert s'.requests == s.requests[rid := s'.requests[rid]];
    RequestsUpdate(p, s.requests, rid, s'.requests[rid]);
    AttemptsUpdate(s1.attempts, s1.nextAttempt, s'.attempts[s1.nextAttempt]);
    AttemptsTrans(s.attempts, s1.attempts, s'.attempts);
  }

  ghost predicate OpenInv(p: BatchPolicy, s: State, x: Id, n0: Id) {
    InvBut(p, s, x) && x in s.batches && x != 0 && Open(s.requests, x, s.batches[x], n0) && n0 <= s.nextAttempt
  }

  lemma ApplyGood(p: BatchPolicy, s: State, x: Id, n0: Id, rid: Id, aid: Id, mc: MemberCompletion, now: int)
    requires OpenInv(p, s, x, n0) && rid in s.batches[x].members
    requires rid in s.requests && s.requests[rid].current == aid && s.requests[rid].batch == x
    requires InBatch(s.requests[rid].state) && aid in s.attempts
    ensures var s' := ApplyOutcome(p, s, rid, aid, mc, now);
            OpenInv(p, s', x, n0) && Evolves(p, s, s') && s'.batches[x].members == s.batches[x].members
  {
    hide InvBut, Evolves, Open, Requeue, Settle;
    var meta, number := s.requests[rid].meta, s.attempts[aid].number;
    var t := CountOutcome(s.stats, mc.status, meta.work);
    if mc.status > 4 {
      StaleGood(p, s, x, n0, t);
    } else {
      SettleParts(p, s, x, n0, rid, aid, mc, now);
      SettleShape(s, rid, aid, mc, now);
      var e := Settle(s, rid, aid, OutcomeState(mc.status), mc, now).(stats := t);
      var o := if mc.status == 0 && p.fairness.enabled
               then Fairness.NoteDone(s.outstanding, meta.tenant, meta.work) else s.outstanding;
      var s1 := e.(outstanding := o);
      OutstandingBut(p, e, x, o);
      EvolvesSame(p, s, e, s1);
      if mc.status == 1 && p.retryEnabled && number < p.maxAttempts {
        InvFresh(p, s1, x);
        RequeueParts(p, s1, x, n0, rid);
        RequeueEvolves(p, s, s1, rid, number + 1);
        RequeueNext(s1, rid, number + 1);
      }
    }
  }

  lemma RequeueNext(s: State, rid: Id, number: nat)
    requires rid in s.requests
    ensures Requeue(s, rid, number).nextAttempt == s.nextAttempt + 1
  {
  }

  lemma InvFresh(p: BatchPolicy, s: State, x: Id)
    requires InvBut(p, s, x)
    ensures s.nextAttempt !in s.attempts
  {
  }

  lemma EvolvesSame(p: BatchPolicy, s: State, e: State, e': State)
    requires Evolves(p, s, e) && e' == e.(outstanding := e'.outstanding, stats := e'.stats)
    ensures Evolves(p, s, e')
  {
    hide RequestsEvolve, AttemptsEvolve, BatchesEvolve;
  }

  lemma SettleShape(s: State, rid: Id, aid: Id, mc: MemberCompletion, now: int)
    requires rid in s.requests && aid in s.attempts && mc.status <= 4
    ensures var e := Settle(s, rid, aid, OutcomeState(mc.status), mc, now);
            && e.nextAttempt == s.nextAttempt
            && e.requests == s.requests[rid := s.requests[rid].(state := OutcomeState(mc.status))]
            && aid in e.attempts && e.attempts[aid].number == s.attempts[aid].number
            && e.outstanding == s.outstanding
  {
  }

  lemma StaleGood(p: BatchPolicy, s: State, x: Id, n0: Id, t: Stats)
    requires OpenInv(p, s, x, n0) && SameTotals(s.stats, t)
    ensures OpenInv(p, s.(stats := t), x, n0) && Evolves(p, s, s.(stats := t))
  {
    hide WideInv, Open, Tries, Owned, Balanced, Placed, Queued, FormingExact, Ordered, Evolves, SameTotals, Bounded;
    WideStats(p, s, t, s.served, s.outstanding);
    LedgerStats(s.requests, s.attempts, s.stats, t);
    EvolvesRefl(p, s);
    EvolvesSame(p, s, s, s.(stats := t));
  }

  /** A member whose current attempt is the reported, unfinished one is at home. */
  lemma ReportedIsHome(p: BatchPolicy, s: State, x: Id, n0: Id, rid: Id, aid: Id)
    requires OpenInv(p, s, x, n0) && rid in s.batches[x].members && aid < n0
    requires rid in s.requests && s.requests[rid].current == aid && aid in s.attempts
    requires var st := s.attempts[aid].state; !st.Completed? && !st.Cancelled? && !st.Expired? && !st.Failed?
    ensures s.requests[rid].batch == x && InBatch(s.requests[rid].state)
  {
    hide WideInv, Placed, FormingExact, Ordered, Owned, Balanced, Bounded;
    assert Tried(p, s.attempts, s.requests[rid]);
    WaitsOf(s, rid);
  }

  lemma ReportOneGood(p: BatchPolicy, s: State, x: Id, n0: Id, mc: MemberCompletion, now: int)
    requires OpenInv(p, s, x, n0) && mc.request in s.batches[x].members && mc.attempt < n0
    ensures var s' := ReportOne(p, s, mc, now);
            OpenInv(p, s', x, n0) && Evolves(p, s, s') && s'.batches[x].members == s.batches[x].members
  {
    hide OpenInv, Evolves, ApplyOutcome;
    OpenKnown(p, s, x, n0);
    EvolvesRefl(p, s);
    if mc.request in s.requests {
      if s.requests[mc.request].current != mc.attempt {
        StaleGood(p, s, x, n0, s.stats.(stale := s.stats.stale + 1));
      } else if mc.attempt in s.attempts {
        var st := s.attempts[mc.attempt].state;
        if !(st.Completed? || st.Cancelled? || st.Expired? || st.Failed?) {
          ReportedIsHome(p, s, x, n0, mc.request, mc.attempt);
          ApplyGood(p, s, x, n0, mc.request, mc.attempt, mc, now);
        }
      }
    }
  }

  lemma OpenKnown(p: BatchPolicy, s: State, x: Id, n0: Id)
    requires OpenInv(p, s, x, n0)
    ensures x in s.batches
  {
  }

  /** What a report from an honest worker names: members of its batch, with
      attempts that existed when the report was made. */
  predicate Honest(members: seq<Id>, n0: Id, ms: seq<MemberCompletion>) {
    forall i :: 0 <= i < |ms| ==> ms[i].request in members && ms[i].attempt < n0
  }

  lemma {:induction false} ReportAllGood(p: BatchPolicy, s: State, x: Id, n0: Id, ms: seq<MemberCompletion>, now: int)
    requires OpenInv(p, s, x, n0) && Honest(s.batches[x].members, n0, ms)
    ensures var s' := ReportAll(p, s, ms, now);
            OpenInv(p, s', x, n0) && Evolves(p, s, s') && s'.batches[x].members == s.batches[x].members
  {
    hide OpenInv, Evolves, ReportOne;
    OpenKnown(p, s, x, n0);
    if ms == [] { EvolvesRefl(p, s); } else {
      var n := |ms| - 1;
      assert Honest(s.batches[x].members, n0, ms[..n]);
      ReportAllGood(p, s, x, n0, ms[..n], now);
      var s1 := ReportAll(p, s, ms[..n], now);
      OpenKnown(p, s1, x, n0);
      ReportOneGood(p, s1, x, n0, ms[n], now);
      EvolvesTrans(p, s, s1, ReportAll(p, s, ms, now));
    }
  }

  lemma CloseKeeps(p: BatchPolicy, s: State, x: Id)
    requires WideInv(p, s) && Bounded(p, s.requests, s.batches) && x in s.batches
    ensures WideInv(p, Close(s, x)) && Bounded(p, s.requests, Close(s, x).batches)
  {
    hide WideInv, Bounded, AllTerminal, SameTries, SameCounts;
    var s' := Close(s, x);
    ReshapeWide(p, s, x, s'.batches[x]);
    WideStats(p, s.(batches := s'.batches), s'.stats, s.served, s.outstanding);
    TriesRefl(s.requests);
    CountsUpdate(s.batches, x, s'.batches[x]);
    BoundedFrame(p, s.requests, s.batches, s.requests, s'.batches);
  }

  lemma CloseGood(p: BatchPolicy, s: State, x: Id, n0: Id)
    requires OpenInv(p, s, x, n0)
    ensures Good(p, s, Close(s, x))
  {
    hide WideInv, Placed, Queued, FormingExact, Ordered, TrialInv, Balanced, Bounded, Open, AllTerminal, RequestsEvolve, AttemptsEvolve, BatchesEvolve;
    var s' := Close(s, x);
    OpenState(s.requests, x, s.batches[x], n0);
    CloseCore(s, x);
    CloseKeeps(p, s, x);
    TrialSame(p, s, s');
    LedgerStats(s.requests, s.attempts, s.stats, s'.stats);
    BatchesUpdate(s.batches, x, s'.batches[x]);
    RequestsRefl(p, s.requests);
    AttemptsRefl(s.attempts);
  }

  /** An honest report keeps the invariant, whether accepted or turned away. */
  lemma CompleteGood(p: BatchPolicy, s: State, c: Completion, now: int)
    requires Inv(p, s)
    requires Authority(s, c).Ok? ==> Honest(s.batches[c.batch].members, s.nextAttempt, c.members)
    ensures Good(p, s, Complete(p, s, c, now).0)
  {
    hide InvBut, Evolves, Open, Close, ReportAll, Honest;
    if Authority(s, c).Ok? {
      var n0 := s.nextAttempt;
      OpenStart(p, s, c.batch);
      ReportAllGood(p, s, c.batch, n0, c.members, now);
      var s1 := ReportAll(p, s, c.members, now);
      CloseGood(p, s1, c.batch, n0);
      EvolvesTrans(p, s, s1, Close(s1, c.batch));
    } else {
      GoodRefl(p, s);
      TurnedAway(p, s);
    }
  }

  lemma TurnedAway(p: BatchPolicy, s: State)
    requires Inv(p, s)
    ensures Good(p, s, s.(stats := s.stats.(stale := s.stats.stale + 1)))
  {
    hide WideInv, Tries, Owned, Balanced, Placed, Queued, FormingExact, Ordered, Evolves, Bounded;
    var t := s.stats.(stale := s.stats.stale + 1);
    WideStats(p, s, t, s.served, s.outstanding);
    LedgerStats(s.requests, s.attempts, s.stats, t);
    EvolvesRefl(p, s);
    EvolvesSame(p, s, s, s.(stats := t));
  }

  lemma OpenStart(p: BatchPolicy, s: State, x: Id)
    requires Inv(p, s) && x in s.batches && (s.batches[x].state.Dispatched? || s.batches[x].state.Running?)
    ensures OpenInv(p, s, x, s.nextAttempt)
  {
    hide Sound, Keyed, IndexKnown, FormingKnown, TrialInv, LedgerInv, Queued, FormingExact, Ordered, Housing, Distinct, Home, Bounded;
    NoBatchZero(s);
    assert Home(s.requests, x, s.batches[x]);
    HomeIsOpen(s.requests, x, s.batches[x], s.nextAttempt);
  }

  // ---- epochs and workers ----

  lemma RollEpochGood(p: BatchPolicy, s: State)
    requires Inv(p, s)
    ensures Good(p, s, RollEpoch(s))
  {
    hide Sound, Keyed, IndexKnown, FormingKnown, Tries, Owned, Balanced, Placed, Queued, FormingExact, Ordered, RequestsEvolve, AttemptsEvolve, BatchesEvolve, Bounded;
    EvolvesRefl(p, s);
  }

  lemma RegisterWorkerGood(p: BatchPolicy, s: State, worker: Id, boot: Id, maxBatch: U32)
    requires Inv(p, s)
    ensures Good(p, s, RegisterWorker(s, worker, boot, maxBatch))
  {
    hide Sound, Keyed, IndexKnown, FormingKnown, Tries, Owned, Balanced, Placed, Queued, FormingExact, Ordered, RequestsEvolve, AttemptsEvolve, BatchesEvolve, Bounded;
    EvolvesRefl(p, s);
  }
}
