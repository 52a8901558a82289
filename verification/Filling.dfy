/** The fill loop: it keeps the invariant and touches one batch only. */
module Filling {
  import opened Types
  import opened Policy
  import opened Lists
  import opened Scheduler
  import opened Wide
  import opened Placement
  import opened Core
  import opened Trials
  import opened Ledger
  import opened Evolution
  import opened Invariant

  /** The candidates are queued under the key. */
  predicate Ready(rs: Requests, key: Key, cands: seq<Id>) {
    forall c :: c in cands ==> c in rs && rs[c].inWaiting && rs[c].key == key
  }

  predicate FormingUnder(bs: Batches, bid: Id, key: Key) {
    bid in bs && bs[bid].state.Forming? && bs[bid].key == key
  }

  /** Only batch `bid` differs, and only in its list, totals, descriptor and times. */
  predicate OnlyBatch(s: State, s': State, bid: Id) {
    && bid in s.batches && bid in s'.batches && s'.batches == s.batches[bid := s'.batches[bid]]
    && s'.batches[bid].state == s.batches[bid].state && s'.batches[bid].key == s.batches[bid].key
    && s'.forming == s.forming && s'.sealedOrder == s.sealedOrder && s'.epoch == s.epoch
    && s'.attempts == s.attempts && s'.stats == s.stats && s'.workers == s.workers
    && s'.requests.Keys == s.requests.Keys
  }

  lemma OnlyBatchTrans(a: State, b: State, c: State, bid: Id)
    requires OnlyBatch(a, b, bid) && OnlyBatch(b, c, bid)
    ensures OnlyBatch(a, c, bid)
  {
  }

  lemma QueuedCandidate(p: BatchPolicy, s: State, r: Id)
    requires Inv(p, s) && r in s.requests && s.requests[r].inWaiting
    ensures Candidate(p, s.requests, s.requests[r].key, r)
  {
    hide Sound, Keyed, FormingKnown, Placed, FormingExact, Ordered, TrialInv, LedgerInv, Candidate, Bounded;
    WaitsOf(s, r);
  }

  lemma PlaceReady(s: State, bid: Id, key: Key, pick: Id, cands: seq<Id>)
    requires bid in s.batches && pick in s.requests && Ready(s.requests, key, cands)
    ensures Ready(Place(s, bid, key, pick).requests, key, Without(cands, pick))
    ensures OnlyBatch(s, Place(s, bid, key, pick), bid)
  {
    hide IndexRemove;
  }

  lemma {:induction false} FillGood(p: BatchPolicy, s: State, bid: Id, key: Key, cands: seq<Id>, now: int)
    requires Inv(p, s) && FormingUnder(s.batches, bid, key) && Ready(s.requests, key, cands)
    ensures var s' := Fill(p, s, bid, key, cands, now); Good(p, s, s') && OnlyBatch(s, s', bid)
    decreases |cands|
  {
    hide Inv, Evolves, Place, Pick, OnlyBatch, Admissible;
    var pool := Pool(p, s, bid, cands, now);
    if pool == [] {
      GoodRefl(p, s);
      OnlyBatchRefl(s, bid);
    } else {
      var pick := Pick(p, s, pool);
      AdmissibleParts(p, s, bid, pick, now);
      var s1 := Place(s, bid, key, pick);
      QueuedCandidate(p, s, pick);
      PlaceGood(p, s, bid, key, pick);
      PlaceReady(s, bid, key, pick, cands);
      OnlyBatchForming(s, s1, bid, key);
      FillGood(p, s1, bid, key, Without(cands, pick), now);
      var s' := Fill(p, s, bid, key, cands, now);
      GoodTrans(p, s, s1, s');
      OnlyBatchTrans(s, s1, s', bid);
    }
  }

  lemma OnlyBatchRefl(s: State, bid: Id)
    requires bid in s.batches
    ensures OnlyBatch(s, s, bid)
  {
  }

  lemma OnlyBatchForming(s: State, s': State, bid: Id, key: Key)
    requires OnlyBatch(s, s', bid) && FormingUnder(s.batches, bid, key)
    ensures FormingUnder(s'.batches, bid, key)
  {
  }

  lemma AdmissibleParts(p: BatchPolicy, s: State, bid: Id, rid: Id, now: int)
    requires bid in s.batches && Admissible(p, s, bid, rid, now)
    ensures rid in s.requests && AllowsAdd(p.budget, s.batches[bid].accum, Load(s.requests[rid].meta))
    ensures !Policy.Expired(s.requests[rid].meta.deadline, now)
  {
  }

  lemma BucketReady(p: BatchPolicy, s: State, key: Key)
    requires Inv(p, s)
    ensures Ready(s.requests, key, Bucket(s.index, key))
  {
    hide WideInv, Placed, FormingExact, Ordered, TrialInv, LedgerInv, NoDup, Bounded;
    if key in s.index { assert BucketOk(s.requests, key, s.index[key]); }
  }

  lemma FillBatchGood(p: BatchPolicy, s: State, bid: Id, key: Key, now: int)
    requires Inv(p, s) && FormingUnder(s.batches, bid, key)
    ensures var s' := FillBatch(p, s, bid, key, now); Good(p, s, s') && OnlyBatch(s, s', bid)
  {
    BucketReady(p, s, key);
    FillGood(p, s, bid, key, Bucket(s.index, key), now);
  }

  lemma RetimeGood(p: BatchPolicy, s: State, bid: Id, now: int)
    requires Inv(p, s) && bid in s.batches
    ensures Good(p, s, Retime(p, s, bid, now)) && OnlyBatch(s, Retime(p, s, bid, now), bid)
  {
    hide Inv, Evolves, AllowedWait;
    ReshapeGood(p, s, bid, Retime(p, s, bid, now).batches[bid]);
  }

  lemma BackdateGood(p: BatchPolicy, s: State, bid: Id, now: int)
    requires Inv(p, s) && bid in s.batches
    ensures Good(p, s, Backdate(s, bid, now)) && OnlyBatch(s, Backdate(s, bid, now), bid)
  {
    hide Inv, Evolves, Earliest;
    ReshapeGood(p, s, bid, Backdate(s, bid, now).batches[bid]);
  }
}
