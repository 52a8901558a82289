/** Completion reports and the placement invariant: while a report is applied its
    batch is open, and closing the batch restores the invariant. */
module Reports {
  import opened Types
  import opened Lists
  import opened Scheduler
  import opened Placement
  import opened Core

  /** Every member is still at home, or was requeued with an attempt numbered
      `n0` or later. */
  predicate Open(rs: Requests, bid: Id, b: Batch, n0: Id) {
    && (b.state.Dispatched? || b.state.Running?)
    && forall m :: m in b.members ==>
         && m in rs
         && ((rs[m].batch == bid && MemberState(b.state, rs[m].state)) || (rs[m].state.Eligible? && rs[m].current >= n0))
  }

  lemma OpenRequest(rs: Requests, bid: Id, b: Batch, n0: Id, r: Id, q: Request)
    requires Open(rs, bid, b, n0)
    requires (q.batch == bid && MemberState(b.state, q.state)) || (q.state.Eligible? && q.current >= n0)
    ensures Open(rs[r := q], bid, b, n0)
  {
    hide MemberState;
  }

  lemma HomeIsOpen(rs: Requests, bid: Id, b: Batch, n0: Id)
    requires Home(rs, bid, b) && (b.state.Dispatched? || b.state.Running?)
    ensures Open(rs, bid, b, n0)
  {
    hide MemberState;
  }

  lemma SettleCore(s: State, x: Id, n0: Id, rid: Id, aid: Id, st: RequestState, mc: MemberCompletion, now: int)
    requires CoreBut(s, x) && x in s.batches && Open(s.requests, x, s.batches[x], n0)
    requires rid in s.requests && aid in s.attempts && s.requests[rid].batch == x && x != 0
    requires InBatch(s.requests[rid].state) && Terminal(st) && !st.Rejected?
    ensures var s' := Settle(s, rid, aid, st, mc, now);
            && CoreBut(s', x) && x in s'.batches && Open(s'.requests, x, s'.batches[x], n0)
            && s'.batches[x].members == s.batches[x].members
  {
    hide Placed, Queued, FormingExact, Ordered, Open;
    var s' := Settle(s, rid, aid, st, mc, now);
    var q, b := s'.requests[rid], s'.batches[x];
    WaitsOf(s, rid);
    PlacedRequest(s.requests, s.batches, x, rid, q);
    QueuedRequest(s.requests, s.index, rid, q);
    OpenState(s.requests, x, s.batches[x], n0);
    OpenRequest(s.requests, x, s.batches[x], n0, rid, q);
    ReshapeCore(s.(requests := s'.requests), x, x, b);
    OpenReshape(s'.requests, x, s.batches[x], b, n0);
  }

  lemma OpenState(rs: Requests, bid: Id, b: Batch, n0: Id)
    requires Open(rs, bid, b, n0)
    ensures b.state.Dispatched? || b.state.Running?
  {
  }

  lemma OpenReshape(rs: Requests, bid: Id, b: Batch, b': Batch, n0: Id)
    requires Open(rs, bid, b, n0) && b'.members == b.members && b'.state == b.state
    ensures Open(rs, bid, b', n0)
  {
  }

  lemma RequeueCore(s: State, x: Id, n0: Id, rid: Id, number: nat)
    requires CoreBut(s, x) && x in s.batches && Open(s.requests, x, s.batches[x], n0) && n0 <= s.nextAttempt
    requires rid in s.requests && s.requests[rid].batch == x && Terminal(s.requests[rid].state)
    ensures var s' := Requeue(s, rid, number);
            && CoreBut(s', x) && x in s'.batches && Open(s'.requests, x, s'.batches[x], n0)
            && s'.batches[x].members == s.batches[x].members
  {
    hide Placed, Queued, FormingExact, Ordered, Open, IndexAdd;
    var q := Requeue(s, rid, number).requests[rid];
    WaitsOf(s, rid);
    PlacedRequest(s.requests, s.batches, x, rid, q);
    QueuedAdd(s.requests, s.index, rid, q);
    OpenRequest(s.requests, x, s.batches[x], n0, rid, q);
  }

  // ---- closing ----

  lemma CloseHousing(rs: Requests, bs: Batches, x: Id, b: Batch)
    requires Housing(rs, bs) && x in bs && b.members == bs[x].members
    requires bs[x].state.Dispatched? || bs[x].state.Running?
    requires b.state == if AllTerminal(rs, b.members) then BatchState.Completed else BatchState.PartiallyCompleted
    ensures Housing(rs, bs[x := b])
  {
    forall r | r in rs && InBatch(rs[r].state) && rs[r].batch == x
      ensures r in b.members && StateMatch(rs[r].state, b.state)
    {
      assert Housed(bs, r, rs[r]);
    }
    HousingBatch(rs, bs, x, b);
  }

  lemma ClosePlaced(rs: Requests, bs: Batches, x: Id, b: Batch)
    requires Placed(rs, bs, x) && x in bs && b.members == bs[x].members
    requires bs[x].state.Dispatched? || bs[x].state.Running?
    requires b.state == if AllTerminal(rs, b.members) then BatchState.Completed else BatchState.PartiallyCompleted
    ensures Placed(rs, bs[x := b], 0)
  {
    hide Housing, Home, AllTerminal, NoDup;
    CloseHousing(rs, bs, x, b);
    var bs' := bs[x := b];
    forall z | z in bs' && z != 0 ensures Home(rs, z, bs'[z]) {
      if z == x { ClosedHome(rs, x, b); }
    }
    assert NoDup(bs[x].members);
    DistinctBatch(bs, x, b);
  }

  lemma ClosedHome(rs: Requests, bid: Id, b: Batch)
    requires b.state.Completed? || b.state.PartiallyCompleted?
    ensures Home(rs, bid, b)
  {
  }

  lemma CloseCore(s: State, x: Id)
    requires CoreBut(s, x) && x in s.batches && (s.batches[x].state.Dispatched? || s.batches[x].state.Running?)
    ensures CoreInv(Close(s, x))
  {
    hide Placed, Queued, FormingExact, Ordered, AllTerminal;
    var s' := Close(s, x);
    ClosePlaced(s.requests, s.batches, x, s'.batches[x]);
    FormingReshape(s.batches, s.forming, x, s'.batches[x]);
    OrderedReshape(s.batches, s.sealedOrder, x, s'.batches[x]);
  }
}
