/** What the expiry pass leaves of each request. */
module Expiring {
  import opened Types
  import opened Policy
  import opened Scheduler
  import opened Wide
  import opened Placement
  import opened Core
  import opened Trials
  import opened Ledger
  import opened Evolution
  import opened Invariant
  import opened Ticking
  import opened Cancellation
  import Engine

  /** Request `r` has ended as `st`, and so has its attempt, with this outcome and now. */
  predicate EndedAs(s: State, s': State, r: Id, st: RequestState, outcome: U8, now: int)
    requires r in s.requests
  {
    var a := s.requests[r].current;
    && r in s'.requests && a in s.attempts && a in s'.attempts
    && s'.requests[r] == s.requests[r].(state := st, inWaiting := false, batch := s'.requests[r].batch)
    && s'.attempts[a] == s.attempts[a].(state := st, outcome := outcome, completed := now)
  }

  /** The request and its attempt are as they were. */
  predicate Spared(s: State, s': State, r: Id)
    requires r in s.requests
  {
    var a := s.requests[r].current;
    && r in s'.requests && s'.requests[r] == s.requests[r]
    && a in s.attempts && a in s'.attempts && s'.attempts[a] == s.attempts[a]
  }

  /** Listed requests that were live have ended like this, all others are spared. */
  predicate Passed(s: State, s': State, ids: seq<Id>, st: RequestState, outcome: U8, now: int) {
    forall r :: r in s.requests ==>
      if r in ids && !Ended(s.requests[r].state) then EndedAs(s, s', r, st, outcome, now) else Spared(s, s', r)
  }

  lemma OwnAttempts(p: BatchPolicy, s: State, r: Id, z: Id)
    requires Inv(p, s) && r in s.requests && z in s.requests
    ensures s.requests[r].current in s.attempts && (r != z ==> s.requests[r].current != s.requests[z].current)
  {
    hide WideInv, CoreBut, LedgerInv, Bounded;
    assert Tried(p, s.attempts, s.requests[r]) && Tried(p, s.attempts, s.requests[z]);
    TriedCurrent(p, s.attempts, s.requests[r]);
    TriedCurrent(p, s.attempts, s.requests[z]);
    if r != z { assert Apart(s.requests[r].attempts, s.requests[z].attempts); }
  }

  lemma NothingPassed(p: BatchPolicy, s: State, st: RequestState, outcome: U8, now: int)
    requires Inv(p, s)
    ensures Passed(s, s, [], st, outcome, now)
  {
    hide Inv;
    forall r | r in s.requests ensures Spared(s, s, r) { OwnAttempts(p, s, r, r); }
  }

  /** One more request. */
  lemma PassedOn(p: BatchPolicy, a: State, b: State, c: State, ids: seq<Id>, x: Id, st: RequestState, outcome: U8, now: int)
    requires Passed(a, b, ids, st, outcome, now) && Passed(b, c, [x], st, outcome, now) && Ended(st)
    ensures Passed(a, c, ids + [x], st, outcome, now)
  {
    forall r | r in a.requests
      ensures if r in ids + [x] && !Ended(a.requests[r].state) then EndedAs(a, c, r, st, outcome, now) else Spared(a, c, r)
    {
      assert if r in ids && !Ended(a.requests[r].state) then EndedAs(a, b, r, st, outcome, now) else Spared(a, b, r);
      assert if r in [x] && !Ended(b.requests[r].state) then EndedAs(b, c, r, st, outcome, now) else Spared(b, c, r);
    }
  }

  // ---- the waiting requests ----

  lemma ExpireOnePasses(p: BatchPolicy, s: State, r: Id, now: int)
    requires Inv(p, s) && r in s.requests
    ensures Passed(s, ExpireOne(s, r, now), [r], RequestState.Expired, 4, now)
  {
    hide Inv, IndexRemove;
    var s' := ExpireOne(s, r, now);
    EndedIsTerminal(s.requests[r].state);
    forall z | z in s.requests
      ensures if z in [r] && !Ended(s.requests[z].state) then EndedAs(s, s', z, RequestState.Expired, 4, now) else Spared(s, s', z)
    {
      OwnAttempts(p, s, r, z);
      OwnAttempts(p, s, z, r);
    }
  }

  lemma {:induction false} ExpireWaitingPasses(p: BatchPolicy, s: State, ids: seq<Id>, now: int)
    requires Inv(p, s) && Expirable(s.requests, ids)
    ensures Passed(s, ExpireWaiting(s, ids, now), ids, RequestState.Expired, 4, now)
  {
    hide Inv, ExpireOne, Passed, Evolves;
    if ids == [] { NothingPassed(p, s, RequestState.Expired, 4, now); } else {
      var n := |ids| - 1;
      var s1 := ExpireWaiting(s, ids[..n], now);
      assert forall r :: r in ids[..n] ==> r in ids;
      assert ids[n] in ids;
      ExpireWaitingGood(p, s, ids[..n], now);
      ExpireWaitingPasses(p, s, ids[..n], now);
      ExpireOnePasses(p, s1, ids[n], now);
      PassedOn(p, s, s1, ExpireWaiting(s, ids, now), ids[..n], ids[n], RequestState.Expired, 4, now);
      assert ids[..n] + [ids[n]] == ids;
    }
  }

  // ---- the members of forming batches ----

  /** Each listed request is open to cancellation or has ended. */
  predicate Takeable(s: State, ids: seq<Id>) {
    forall r :: r in ids && r in s.requests ==> Ended(s.requests[r].state) || Cancellable(s, r)
  }

  lemma CancelPasses(p: BatchPolicy, s: State, r: Id, now: int)
    requires Inv(p, s) && Takeable(s, [r])
    ensures var s' := Cancel(p, s, r, now).0;
            Passed(s, s', [r], RequestState.Cancelled, 3, now) && s'.batches.Keys == s.batches.Keys
            && forall b :: b in s.batches ==> s'.batches[b].state == s.batches[b].state
  {
    hide Inv, Cancel;
    var s' := Cancel(p, s, r, now).0;
    CancelExact(p, s, r, now);
    assert r in [r];
    forall z | z in s.requests
      ensures if z in [r] && !Ended(s.requests[z].state) then EndedAs(s, s', z, RequestState.Cancelled, 3, now) else Spared(s, s', z)
    {
      OwnAttempts(p, s, z, z);
      if r in s.requests { OwnAttempts(p, s, r, z); }
    }
  }

  lemma TakeableLater(s: State, s': State, x: Id, ids: seq<Id>, now: int)
    requires Takeable(s, ids) && Passed(s, s', [x], RequestState.Cancelled, 3, now) && s'.requests.Keys == s.requests.Keys
    requires s'.batches.Keys == s.batches.Keys && forall b :: b in s.batches ==> s'.batches[b].state == s.batches[b].state
    ensures Takeable(s', ids)
  {
    forall r | r in ids && r in s'.requests ensures Ended(s'.requests[r].state) || Cancellable(s', r) {
      assert if r in [x] && !Ended(s.requests[r].state) then EndedAs(s, s', r, RequestState.Cancelled, 3, now) else Spared(s, s', r);
    }
  }

  lemma {:induction false} CancelAllPasses(p: BatchPolicy, s: State, ids: seq<Id>, all: seq<Id>, now: int)
    requires Inv(p, s) && Takeable(s, all) && forall r :: r in ids ==> r in all
    ensures var s' := CancelAll(p, s, ids, now); Passed(s, s', ids, RequestState.Cancelled, 3, now) && Takeable(s', all)
    ensures CancelAll(p, s, ids, now).requests.Keys == s.requests.Keys
  {
    hide Inv, Cancel, Passed, Takeable, Evolves;
    if ids == [] { NothingPassed(p, s, RequestState.Cancelled, 3, now); } else {
      var n := |ids| - 1;
      var s1, s' := CancelAll(p, s, ids[..n], now), CancelAll(p, s, ids, now);
      assert ids[n] in ids && forall r :: r in ids[..n] ==> r in ids;
      CancelAllPasses(p, s, ids[..n], all, now);
      CancelAllGood(p, s, ids[..n], now);
      OneTakeable(s1, all, ids[n]);
      CancelPasses(p, s1, ids[n], now);
      CancelKeys(p, s1, ids[n], now);
      TakeableLater(s1, s', ids[n], all, now);
      PassedOn(p, s, s1, s', ids[..n], ids[n], RequestState.Cancelled, 3, now);
      assert ids[..n] + [ids[n]] == ids;
    }
  }

  lemma OneTakeable(s: State, ids: seq<Id>, x: Id)
    requires Takeable(s, ids) && x in ids
    ensures Takeable(s, [x])
  {
  }

  lemma CancelKeys(p: BatchPolicy, s: State, r: Id, now: int)
    requires Inv(p, s)
    ensures Cancel(p, s, r, now).0.requests.Keys == s.requests.Keys
  {
    hide Inv, Cancel;
    CancelExact(p, s, r, now);
  }

  // ---- the whole pass ----

  lemma FormingMembersTakeable(p: BatchPolicy, s: State, placed: seq<Id>, now: int)
    requires Inv(p, s) && Engine.PlacedScan(s, placed, now)
    ensures Takeable(s, placed)
  {
    hide WideInv, Housing, Placement.Distinct, Queued, Ordered, TrialInv, LedgerInv, Bounded, Engine.Late;
    forall r | r in placed && r in s.requests ensures Ended(s.requests[r].state) || Cancellable(s, r) {
      assert Engine.FormingLists(s, r);
      var k :| k in s.forming && s.forming[k] in s.batches && r in s.batches[s.forming[k]].members;
      NoBatchZeroHere(p, s);
      assert Home(s.requests, s.forming[k], s.batches[s.forming[k]]);
    }
  }

  lemma NoBatchZeroHere(p: BatchPolicy, s: State)
    requires Inv(p, s)
    ensures 0 !in s.batches
  {
    hide Keyed, AllSound, IndexKnown, FormingKnown, CoreBut, TrialInv, LedgerInv, Bounded;
  }

  /** The expiry pass in a state of a core run: queued requests whose deadline has passed
      are expired, those of forming batches are cancelled, and all others are spared. */
  lemma ExpireExact(p: BatchPolicy, s: State, waiting: seq<Id>, placed: seq<Id>, now: int)
    requires Inv(p, s) && Expirable(s.requests, waiting)
    requires Engine.WaitingScan(s, waiting, now) && Engine.PlacedScan(ExpireWaiting(s, waiting, now), placed, now)
    ensures var s1, s' := ExpireWaiting(s, waiting, now), Expire(p, s, waiting, placed, now);
            Passed(s, s1, waiting, RequestState.Expired, 4, now) && Passed(s1, s', placed, RequestState.Cancelled, 3, now)
  {
    hide Inv, ExpireWaiting, CancelAll, Passed, Takeable, Expirable, Evolves, Engine.WaitingScan, Engine.PlacedScan;
    var s1 := ExpireWaiting(s, waiting, now);
    ExpireWaitingPasses(p, s, waiting, now);
    ExpireWaitingGood(p, s, waiting, now);
    FormingMembersTakeable(p, s1, placed, now);
    CancelAllPasses(p, s1, placed, placed, now);
  }
}
