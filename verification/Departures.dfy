/** Where the code does more than its documentation says, stated exactly. */
module Departures {
  import opened Types
  import opened Policy
  import opened Lists
  import opened Scheduler
  import opened Placement
  import opened Core
  import opened Wide
  import opened Trials
  import opened Ledger
  import opened Evolution
  import opened Invariant
  import opened Engine
  import opened TickEnds
  import Fairness

  // ---- public retry ----

  function AttemptNumber(s: State, rid: Id): nat
    requires rid in s.requests
  {
    var aid := s.requests[rid].current;
    if aid in s.attempts then s.attempts[aid].number else 0
  }

  /** What a caller of retry can check beforehand. */
  predicate Retriable(p: BatchPolicy, s: State, rid: Id, now: int)
    requires rid in s.requests
  {
    AttemptNumber(s, rid) < p.maxAttempts && !Policy.Expired(s.requests[rid].meta.deadline, now)
  }

  lemma RetryShape(p: BatchPolicy, s: State, rid: Id, now: int)
    requires rid in s.requests
    ensures var (s1, code) := Retry(p, s, rid, now);
            && (code.Ok? <==> Retriable(p, s, rid, now)) && (!code.Ok? ==> s1 == s)
            && (code.Ok? ==> rid in s1.requests && s1.requests[rid].state.Eligible?
                             && s1.requests[rid].meta == s.requests[rid].meta && s1.stats.completed == s.stats.completed)
  {
    hide IndexAdd;
  }

  /** In any state a retry, the tick at its end included, leaves a finished request
      live exactly when it has attempts left and its deadline has not passed; what it
      ended as is never looked at, and no counter of completed requests moves. */
  lemma RetryRevives(p: BatchPolicy, s: State, rid: Id, plan: Plan, limit: U32, now: int)
    requires rid in s.requests && Terminal(s.requests[rid].state)
    requires Observed(p, Retry(p, s, rid, now).0, plan, now)
    ensures var (s1, code) := Retry(p, s, rid, now);
            var s' := if code.Ok? then Tick(p, s1, plan, limit, now) else s1;
            && rid in s'.requests && (Terminal(s'.requests[rid].state) <==> !Retriable(p, s, rid, now))
            && s'.stats.completed == s.stats.completed
  {
    hide Tick, Observed, Retry, Retriable, RecordsEnd, Late;
    RetryShape(p, s, rid, now);
    var (s1, code) := Retry(p, s, rid, now);
    if code.Ok? {
      NotLate(p, s, s1, rid, now);
      TickEndsOnlyLate(p, s1, plan, limit, now, rid);
      TickEndsOnlyListed(p, s1, plan, limit, now);
    }
  }

  lemma NotLate(p: BatchPolicy, s: State, s1: State, rid: Id, now: int)
    requires rid in s.requests && rid in s1.requests && s1.requests[rid].meta == s.requests[rid].meta && Retriable(p, s, rid, now)
    ensures !Late(s1.requests, rid, now)
  {
  }

  /** A retry queues the request once more; its bucket stays free of duplicates
      exactly when it was not queued there already. */
  lemma RetryQueuesAgain(p: BatchPolicy, s: State, rid: Id, now: int)
    requires rid in s.requests && Retry(p, s, rid, now).1.Ok? && NoDup(Bucket(s.index, s.requests[rid].key))
    ensures NoDup(Bucket(Retry(p, s, rid, now).0.index, s.requests[rid].key)) <==> rid !in Bucket(s.index, s.requests[rid].key)
  {
    var key := s.requests[rid].key;
    var was, queue := Bucket(s.index, key), Bucket(Retry(p, s, rid, now).0.index, key);
    assert queue == was + [rid];
    if rid in was {
      var i :| 0 <= i < |was| && was[i] == rid;
      assert queue[i] == queue[|was|];
    } else {
      NoDupAppend(was, rid);
    }
  }

  // ---- reports that name strangers ----

  /** The states of an attempt that the guard of a report lets stand. */
  predicate Final(st: RequestState) { st.Completed? || st.Cancelled? || st.Expired? || st.Failed? }

  /** The reported pair is current and unfinished, and the status ends something.
      The batch that the report names is not asked about. */
  predicate Acts(s: State, mc: MemberCompletion) { Passes(s, mc) && mc.status <= 4 }

  predicate Passes(s: State, mc: MemberCompletion) {
    && mc.request in s.requests && s.requests[mc.request].current == mc.attempt && mc.attempt in s.attempts
    && !Final(s.attempts[mc.attempt].state)
  }

  /** The entries of a report that act when their turn comes, and on whom. */
  predicate ActsOn(p: BatchPolicy, s: State, ms: seq<MemberCompletion>, now: int, i: nat, r: Id)
    requires i < |ms|
  {
    ms[i].request == r && Acts(ReportAll(p, s, ms[..i], now), ms[i])
  }

  /** Some entry acts on `r`. */
  ghost predicate Reaches(p: BatchPolicy, s: State, ms: seq<MemberCompletion>, now: int, r: Id) {
    exists i :: 0 <= i < |ms| && ActsOn(p, s, ms, now, i, r)
  }

  /** Attempt `a` is the current one of `r` and of nobody else. */
  predicate Sole(s: State, r: Id, a: Id) {
    && r in s.requests && a in s.attempts && a < s.nextAttempt
    && forall q :: q in s.requests && q != r ==> s.requests[q].current != a
  }

  /** The request is where it was, with an attempt that agrees. */
  predicate Still(s: State, r: Id, q0: Request, a0: Attempt) {
    && Sole(s, r, q0.current) && s.requests[r] == q0 && s.attempts[q0.current] == a0
  }

  /** The request has moved: it has a further attempt, or its attempt is finished. */
  predicate Moved(s: State, r: Id, q0: Request) {
    && Sole(s, r, q0.current)
    && (|s.requests[r].attempts| > |q0.attempts|
        || (s.requests[r].current == q0.current && Final(s.requests[r].state) && Final(s.attempts[q0.current].state)))
  }

  /** What one acting entry leaves of requests and attempts. */
  predicate AppliedTo(s: State, s': State, rid: Id, aid: Id) {
    && rid in s.requests && rid in s'.requests && s'.requests == s.requests[rid := s'.requests[rid]]
    && (s'.requests[rid].current == s.requests[rid].current || s'.requests[rid].current == s.nextAttempt)
    && (forall a :: a in s.attempts && a != aid && a < s.nextAttempt ==> a in s'.attempts && s'.attempts[a] == s.attempts[a])
    && s.nextAttempt <= s'.nextAttempt
  }

  lemma SettleApplied(s: State, rid: Id, aid: Id, st: RequestState, mc: MemberCompletion, now: int)
    requires rid in s.requests && aid in s.attempts
    ensures AppliedTo(s, Settle(s, rid, aid, st, mc, now), rid, aid)
  {
    hide SetOutcome;
  }

  lemma RequeueApplied(s: State, e: State, rid: Id, aid: Id, number: nat)
    requires rid in s.requests && AppliedTo(s, e, rid, aid) && e.nextAttempt == s.nextAttempt
    ensures AppliedTo(s, Requeue(e, rid, number), rid, aid)
  {
    hide IndexAdd;
  }

  lemma OutcomeApplied(p: BatchPolicy, s: State, rid: Id, aid: Id, mc: MemberCompletion, now: int)
    requires rid in s.requests && aid in s.attempts && mc.status <= 4
    ensures AppliedTo(s, ApplyOutcome(p, s, rid, aid, mc, now), rid, aid)
  {
    hide Settle, Requeue, CountOutcome, AppliedTo;
    var e := Settle(s, rid, aid, OutcomeState(mc.status), mc, now);
    var o := if mc.status == 0 && p.fairness.enabled
             then Fairness.NoteDone(s.outstanding, s.requests[rid].meta.tenant, s.requests[rid].meta.work) else s.outstanding;
    var t := CountOutcome(s.stats, mc.status, s.requests[rid].meta.work);
    SettleApplied(s, rid, aid, OutcomeState(mc.status), mc, now);
    SettleShape(s, rid, aid, mc, now);
    AppliedStats(s, e, e.(stats := t, outstanding := o), rid, aid);
    RequeueApplied(s, e.(stats := t, outstanding := o), rid, aid, s.attempts[aid].number + 1);
  }

  lemma AppliedStats(s: State, e: State, e': State, rid: Id, aid: Id)
    requires AppliedTo(s, e, rid, aid) && e'.requests == e.requests && e'.attempts == e.attempts && e'.nextAttempt == e.nextAttempt
    ensures AppliedTo(s, e', rid, aid)
  {
  }

  /** An entry that does not act changes at most a counter. */
  lemma IdleEntry(p: BatchPolicy, s: State, mc: MemberCompletion, now: int)
    requires !Acts(s, mc)
    ensures var s' := ReportOne(p, s, mc, now);
            s'.requests == s.requests && s'.attempts == s.attempts && s'.batches == s.batches && s'.nextAttempt == s.nextAttempt
  {
    hide ApplyOutcome, CountOutcome, Passes;
    PassedEntry(p, s, mc, now);
    StoppedEntry(p, s, mc, now);
    hide ReportOne;
    if Passes(s, mc) {
      PassesKnown(s, mc);
      StaleOutcome(p, s, mc.request, mc.attempt, mc, now);
    }
  }

  lemma PassesKnown(s: State, mc: MemberCompletion)
    requires Passes(s, mc)
    ensures mc.request in s.requests && mc.attempt in s.attempts
  {
  }

  lemma PassedEntry(p: BatchPolicy, s: State, mc: MemberCompletion, now: int)
    ensures Passes(s, mc) ==> ReportOne(p, s, mc, now) == ApplyOutcome(p, s, mc.request, mc.attempt, mc, now)
  {
    hide ApplyOutcome;
  }

  lemma StoppedEntry(p: BatchPolicy, s: State, mc: MemberCompletion, now: int)
    ensures var s' := ReportOne(p, s, mc, now);
            !Passes(s, mc) ==> s'.requests == s.requests && s'.attempts == s.attempts && s'.batches == s.batches && s'.nextAttempt == s.nextAttempt
  {
    hide ApplyOutcome;
  }

  lemma StaleOutcome(p: BatchPolicy, s: State, rid: Id, aid: Id, mc: MemberCompletion, now: int)
    requires rid in s.requests && aid in s.attempts && mc.status > 4
    ensures ApplyOutcome(p, s, rid, aid, mc, now) == s.(stats := CountOutcome(s.stats, mc.status, s.requests[rid].meta.work))
  {
    hide Settle, Requeue, CountOutcome;
  }

  /** An entry that acts on somebody else, or on nobody. */
  lemma OtherEntry(p: BatchPolicy, s: State, mc: MemberCompletion, now: int, r: Id, a: Id)
    requires Sole(s, r, a) && !(mc.request == r && Acts(s, mc))
    ensures var s' := ReportOne(p, s, mc, now);
            Sole(s', r, a) && s'.requests[r] == s.requests[r] && s'.attempts[a] == s.attempts[a]
  {
    hide ApplyOutcome;
    if Acts(s, mc) { OutcomeApplied(p, s, mc.request, mc.attempt, mc, now); } else { IdleEntry(p, s, mc, now); }
  }

  lemma OwnEntry(p: BatchPolicy, s: State, mc: MemberCompletion, now: int, r: Id, q0: Request)
    requires Sole(s, r, q0.current) && mc.request == r && Acts(s, mc) && |s.requests[r].attempts| >= |q0.attempts|
    requires s.requests[r].current == q0.current || |s.requests[r].attempts| > |q0.attempts|
    ensures Moved(ReportOne(p, s, mc, now), r, q0)
  {
    hide SetOutcome, Fairness.NoteDone, CountOutcome, IndexAdd;
  }

  /** After any number of entries a request is untouched or has moved, and it has
      moved exactly when an entry acted on it. */
  lemma {:induction false} TouchedByEntries(p: BatchPolicy, s: State, ms: seq<MemberCompletion>, now: int, r: Id, q0: Request, a0: Attempt)
    requires Still(s, r, q0, a0) && (Final(q0.state) ==> Final(a0.state))
    ensures var s' := ReportAll(p, s, ms, now);
            if Reaches(p, s, ms, now, r) then Moved(s', r, q0) else Still(s', r, q0, a0)
  {
    hide ReportOne, Sole, Acts, Reaches;
    ReachesLast(p, s, ms, now, r);
    if ms != [] {
      var n := |ms| - 1;
      var s1, mc := ReportAll(p, s, ms[..n], now), ms[n];
      TouchedByEntries(p, s, ms[..n], now, r, q0, a0);
      if Reaches(p, s, ms[..n], now, r) {
        MovedEntry(p, s1, mc, now, r, q0);
      } else if mc.request == r && Acts(s1, mc) {
        OwnEntry(p, s1, mc, now, r, q0);
      } else {
        OtherEntry(p, s1, mc, now, r, q0.current);
      }
    }
  }

  /** The last entry reaches a request, or an earlier one does. */
  lemma ReachesLast(p: BatchPolicy, s: State, ms: seq<MemberCompletion>, now: int, r: Id)
    ensures if ms == [] then !Reaches(p, s, ms, now, r) else
            var n := |ms| - 1;
            Reaches(p, s, ms, now, r)
            <==> Reaches(p, s, ms[..n], now, r) || (ms[n].request == r && Acts(ReportAll(p, s, ms[..n], now), ms[n]))
  {
    hide ReportAll, Acts;
    if ms != [] {
      var n := |ms| - 1;
      forall i | 0 <= i < n ensures ActsOn(p, s, ms[..n], now, i, r) == ActsOn(p, s, ms, now, i, r) {
        assert ms[..n][..i] == ms[..i];
      }
      if Reaches(p, s, ms[..n], now, r) {
        var i :| 0 <= i < n && ActsOn(p, s, ms[..n], now, i, r);
        assert ActsOn(p, s, ms, now, i, r);
      }
      if ms[n].request == r && Acts(ReportAll(p, s, ms[..n], now), ms[n]) {
        assert ActsOn(p, s, ms, now, n, r);
      }
    }
  }

  /** A request that has moved does not come back. */
  lemma MovedEntry(p: BatchPolicy, s: State, mc: MemberCompletion, now: int, r: Id, q0: Request)
    requires Moved(s, r, q0)
    ensures Moved(ReportOne(p, s, mc, now), r, q0)
  {
    hide ReportOne, Sole;
    if mc.request == r && Acts(s, mc) { OwnEntry(p, s, mc, now, r, q0); } else { OtherEntry(p, s, mc, now, r, q0.current); }
  }

  // ---- what an accepted report changes ----

  /** In a state of a core run every request is still in this sense. */
  lemma InvStill(p: BatchPolicy, s: State, r: Id)
    requires Inv(p, s) && r in s.requests
    ensures var q := s.requests[r];
            q.current in s.attempts && Still(s, r, q, s.attempts[q.current]) && (Final(q.state) ==> Final(s.attempts[q.current].state))
  {
    hide CoreBut, LedgerInv, Bounded, Keyed, AllSound, IndexKnown, FormingKnown;
    var q := s.requests[r];
    assert Tried(p, s.attempts, q);
    forall z | z in s.requests && z != r ensures s.requests[z].current != q.current {
      assert Tried(p, s.attempts, s.requests[z]) && Apart(q.attempts, s.requests[z].attempts);
      assert q.current in q.attempts;
    }
  }

  /** Whatever a report says, and whoever sends it: it changes a request exactly when
      one of its entries acts on it. */
  lemma ReportTouchesExactly(p: BatchPolicy, s: State, ms: seq<MemberCompletion>, now: int, r: Id)
    requires Inv(p, s) && r in s.requests
    ensures var s' := ReportAll(p, s, ms, now);
            r in s'.requests && (s'.requests[r] != s.requests[r] <==> Reaches(p, s, ms, now, r))
  {
    hide Inv, ReportAll, ActsOn;
    var q := s.requests[r];
    InvStill(p, s, r);
    TouchedByEntries(p, s, ms, now, r, q, s.attempts[q.current]);
    if Reaches(p, s, ms, now, r) {
      StillLive(p, s, ms, now, r);
      MovedDiffers(ReportAll(p, s, ms, now), r, q);
    }
  }

  lemma MovedDiffers(s: State, r: Id, q0: Request)
    requires Moved(s, r, q0) && !Final(q0.state)
    ensures r in s.requests && s.requests[r] != q0
  {
  }

  /** Who has a finished attempt cannot be reached. */
  lemma {:induction false} StillLive(p: BatchPolicy, s: State, ms: seq<MemberCompletion>, now: int, r: Id)
    requires Inv(p, s) && r in s.requests && Reaches(p, s, ms, now, r)
    ensures !Final(s.requests[r].state)
  {
    hide Inv, ReportAll, Sole;
    var q := s.requests[r];
    InvStill(p, s, r);
    var i := FirstReach(p, s, ms, now, r);
    var part := ms[..i];
    forall k | 0 <= k < |part| ensures !ActsOn(p, s, part, now, k, r) {
      assert !ActsOn(p, s, ms, now, k, r) && part[..k] == ms[..k] && part[k] == ms[k];
    }
    TouchedByEntries(p, s, part, now, r, q, s.attempts[q.current]);
  }

  lemma FirstReach(p: BatchPolicy, s: State, ms: seq<MemberCompletion>, now: int, r: Id) returns (i: nat)
    requires Reaches(p, s, ms, now, r)
    ensures i < |ms| && ActsOn(p, s, ms, now, i, r) && forall k :: 0 <= k < i ==> !ActsOn(p, s, ms, now, k, r)
  {
    hide ActsOn;
    i := 0;
    while !ActsOn(p, s, ms, now, i, r)
      invariant i < |ms| && forall k :: 0 <= k < i ==> !ActsOn(p, s, ms, now, k, r)
      decreases |ms| - i
    {
      assert i + 1 < |ms| by {
        var j :| 0 <= j < |ms| && ActsOn(p, s, ms, now, j, r);
        assert j > i;
      }
      i := i + 1;
    }
  }

  /** Nothing outside batch `x` has changed: no request that it does not list, and no
      other batch. */
  predicate Contained(s: State, s': State, x: Id)
    requires x in s.batches
  {
    && (forall r :: r in s.requests && r !in s.batches[x].members ==> r in s'.requests && s'.requests[r] == s.requests[r])
    && (forall b :: b in s.batches && b != x ==> b in s'.batches && s'.batches[b] == s.batches[b])
  }

  /** The members of an accepted batch name it, or no batch any more. */
  predicate AtHome(s: State, x: Id, ms: seq<Id>) {
    x in s.batches && 0 !in s.batches && forall m :: m in ms && m in s.requests ==> s.requests[m].batch == x || s.requests[m].batch == 0
  }

  lemma SettleBatches(s: State, rid: Id, aid: Id, st: RequestState, mc: MemberCompletion, now: int, x: Id)
    requires rid in s.requests && aid in s.attempts && x in s.batches && 0 !in s.batches
    requires s.requests[rid].batch == x || s.requests[rid].batch == 0
    ensures var s' := Settle(s, rid, aid, st, mc, now);
            x in s'.batches && s'.batches == s.batches[x := s'.batches[x]] && rid in s'.requests && s'.requests[rid].batch == s.requests[rid].batch
  {
  }

  lemma MemberEntry(p: BatchPolicy, s: State, mc: MemberCompletion, now: int, x: Id, ms: seq<Id>)
    requires AtHome(s, x, ms) && (Acts(s, mc) ==> mc.request in ms)
    ensures var s' := ReportOne(p, s, mc, now);
            AtHome(s', x, ms) && s'.batches == s.batches[x := s'.batches[x]]
  {
    hide ApplyOutcome;
    if Acts(s, mc) { OutcomeBatches(p, s, mc.request, mc.attempt, mc, now, x, ms); } else { IdleEntry(p, s, mc, now); }
  }

  lemma OutcomeBatches(p: BatchPolicy, s: State, rid: Id, aid: Id, mc: MemberCompletion, now: int, x: Id, ms: seq<Id>)
    requires AtHome(s, x, ms) && rid in ms && rid in s.requests && aid in s.attempts && mc.status <= 4
    ensures var s' := ApplyOutcome(p, s, rid, aid, mc, now);
            AtHome(s', x, ms) && s'.batches == s.batches[x := s'.batches[x]]
  {
    hide Settle, CountOutcome, IndexAdd, AppliedTo;
    SettleBatches(s, rid, aid, OutcomeState(mc.status), mc, now, x);
    SettleShape(s, rid, aid, mc, now);
  }

  lemma {:induction false} MembersOnly(p: BatchPolicy, s: State, cs: seq<MemberCompletion>, now: int, x: Id, ms: seq<Id>)
    requires AtHome(s, x, ms)
    requires forall i :: 0 <= i < |cs| && ActsOn(p, s, cs, now, i, cs[i].request) ==> cs[i].request in ms
    ensures var s' := ReportAll(p, s, cs, now);
            AtHome(s', x, ms) && s'.batches == s.batches[x := s'.batches[x]]
  {
    hide ReportOne, Acts, AtHome;
    assert x in s.batches by { HomeKnown(s, x, ms); }
    if cs == [] {
      assert s.batches == s.batches[x := s.batches[x]];
    } else {
      var n := |cs| - 1;
      var part, s1 := cs[..n], ReportAll(p, s, cs[..n], now);
      forall i | 0 <= i < |part| && ActsOn(p, s, part, now, i, part[i].request) ensures part[i].request in ms {
        assert part[..i] == cs[..i] && part[i] == cs[i];
        assert ActsOn(p, s, cs, now, i, cs[i].request);
      }
      MembersOnly(p, s, part, now, x, ms);
      if Acts(s1, cs[n]) { assert ActsOn(p, s, cs, now, n, cs[n].request); }
      MemberEntry(p, s1, cs[n], now, x, ms);
    }
  }

  lemma HomeKnown(s: State, x: Id, ms: seq<Id>)
    requires AtHome(s, x, ms)
    ensures x in s.batches
  {
  }

  /** Every entry that acts names a member of the batch. */
  ghost predicate NamesMembers(p: BatchPolicy, s: State, ms: seq<MemberCompletion>, now: int, members: seq<Id>) {
    forall i :: 0 <= i < |ms| && ActsOn(p, s, ms, now, i, ms[i].request) ==> ms[i].request in members
  }

  /** An accepted report, of any length and with any statuses, changes nothing outside
      the batch it names exactly when every entry that acts names a member of that
      batch. The code does not check the latter. */
  lemma ForeignReportExact(p: BatchPolicy, s: State, c: Completion, now: int)
    requires Inv(p, s) && Authority(s, c).Ok?
    ensures Contained(s, Complete(p, s, c, now).0, c.batch)
            <==> NamesMembers(p, s, c.members, now, s.batches[c.batch].members)
  {
    hide Inv, ReportAll, ActsOn, AllTerminal, Reaches, AtHome;
    var x, s1 := c.batch, ReportAll(p, s, c.members, now);
    var ms := s.batches[x].members;
    if NamesMembers(p, s, c.members, now, ms) {
      NamedIsContained(p, s, c.members, now, x);
      ClosingContained(p, s, c, now);
    }
    if !NamesMembers(p, s, c.members, now, ms) {
      var i :| 0 <= i < |c.members| && ActsOn(p, s, c.members, now, i, c.members[i].request) && c.members[i].request !in ms;
      var r := c.members[i].request;
      ReachedIsKnown(p, s, c.members, now, i, r);
      ReportTouchesExactly(p, s, c.members, now, r);
    }
  }

  lemma NamedIsContained(p: BatchPolicy, s: State, cs: seq<MemberCompletion>, now: int, x: Id)
    requires Inv(p, s) && x in s.batches && (s.batches[x].state.Dispatched? || s.batches[x].state.Running?)
    requires NamesMembers(p, s, cs, now, s.batches[x].members)
    ensures Contained(s, ReportAll(p, s, cs, now), x)
  {
    hide Inv, ReportAll, AtHome, Reaches, ActsOn;
    var s1, ms := ReportAll(p, s, cs, now), s.batches[x].members;
    AcceptedAtHome(p, s, x);
    MembersOnly(p, s, cs, now, x, ms);
    forall r | r in s.requests && r !in ms ensures r in s1.requests && s1.requests[r] == s.requests[r] {
      NotReached(p, s, cs, now, ms, r);
      ReportTouchesExactly(p, s, cs, now, r);
    }
  }

  /** Closing the batch of an accepted report touches that batch only. */
  lemma ClosingContained(p: BatchPolicy, s: State, c: Completion, now: int)
    requires Authority(s, c).Ok? && Contained(s, ReportAll(p, s, c.members, now), c.batch)
    ensures Contained(s, Complete(p, s, c, now).0, c.batch)
  {
    hide ReportAll, AllTerminal;
  }

  lemma NotReached(p: BatchPolicy, s: State, cs: seq<MemberCompletion>, now: int, ms: seq<Id>, r: Id)
    requires NamesMembers(p, s, cs, now, ms) && r !in ms
    ensures !Reaches(p, s, cs, now, r)
  {
    hide ReportAll, Acts;
  }

  lemma {:induction false} KeysKept(p: BatchPolicy, s: State, ms: seq<MemberCompletion>, now: int)
    ensures ReportAll(p, s, ms, now).requests.Keys == s.requests.Keys
  {
    hide ReportOne;
    if ms != [] {
      KeysKept(p, s, ms[..|ms| - 1], now);
      EntryKeys(p, ReportAll(p, s, ms[..|ms| - 1], now), ms[|ms| - 1], now);
    }
  }

  lemma EntryKeys(p: BatchPolicy, s: State, mc: MemberCompletion, now: int)
    ensures ReportOne(p, s, mc, now).requests.Keys == s.requests.Keys
  {
    hide ApplyOutcome;
    if Acts(s, mc) { OutcomeApplied(p, s, mc.request, mc.attempt, mc, now); } else { IdleEntry(p, s, mc, now); }
  }

  lemma ReachedIsKnown(p: BatchPolicy, s: State, ms: seq<MemberCompletion>, now: int, i: nat, r: Id)
    requires i < |ms| && ActsOn(p, s, ms, now, i, r)
    ensures r in s.requests && Reaches(p, s, ms, now, r)
  {
    hide ReportAll;
    KeysKept(p, s, ms[..i], now);
  }

  lemma AcceptedAtHome(p: BatchPolicy, s: State, x: Id)
    requires Inv(p, s) && x in s.batches && (s.batches[x].state.Dispatched? || s.batches[x].state.Running?)
    ensures AtHome(s, x, s.batches[x].members)
  {
    hide TrialInv, LedgerInv, Bounded, Keyed, AllSound, IndexKnown, FormingKnown, Queued, FormingExact, Ordered, Housing, Distinct, MemberState;
    NoBatchZero(s);
    assert Home(s.requests, x, s.batches[x]);
  }

  // ---- a failing executor ----

  /** Where the failure of its executor leaves a member, finished before or not. */
  function AfterFailure(p: BatchPolicy, s: State, m: Id): RequestState
    requires m in s.requests && s.requests[m].current in s.attempts
  {
    if p.retryEnabled && s.attempts[s.requests[m].current].number < p.maxAttempts then RequestState.Eligible else RequestState.Failed
  }

  lemma FailOneOther(p: BatchPolicy, s: State, x: Id, error: U32, message: Bytes, now: int, m: Id, a: Id)
    requires Sole(s, m, a) && x != m
    ensures var s' := FailOne(p, s, x, error, message, now);
            Sole(s', m, a) && s'.requests[m] == s.requests[m] && s'.attempts[a] == s.attempts[a]
  {
    hide ApplyOutcome;
    if x in s.requests && s.requests[x].current in s.attempts {
      var aid := s.requests[x].current;
      OutcomeApplied(p, s, x, aid, MemberCompletion(x, aid, 1, [], error, message), now);
    }
  }

  lemma FailOneOwn(p: BatchPolicy, s: State, m: Id, error: U32, message: Bytes, now: int)
    requires m in s.requests && s.requests[m].current in s.attempts
    ensures var s' := FailOne(p, s, m, error, message, now);
            && m in s'.requests && s'.requests[m].state == AfterFailure(p, s, m)
            && (Sole(s, m, s.requests[m].current) ==> Sole(s', m, s.requests[m].current))
  {
    hide SetOutcome, CountOutcome, IndexAdd;
  }

  lemma {:induction false} FailAllOn(p: BatchPolicy, s: State, ms: seq<Id>, error: U32, message: Bytes, now: int, m: Id)
    requires NoDup(ms) && m in s.requests && Sole(s, m, s.requests[m].current)
    ensures var s', a := FailAll(p, s, ms, error, message, now), s.requests[m].current;
            && Sole(s', m, a)
            && (m !in ms ==> s'.requests[m] == s.requests[m] && s'.attempts[a] == s.attempts[a])
            && (m in ms ==> s'.requests[m].state == AfterFailure(p, s, m))
  {
    hide FailOne, Sole;
    assert m in s.requests && s.requests[m].current in s.attempts by { SoleKnown(s, m, s.requests[m].current); }
    if ms != [] {
      var n := |ms| - 1;
      var s1 := FailAll(p, s, ms[..n], error, message, now);
      FailAllOn(p, s, ms[..n], error, message, now, m);
      SoleKnown(s1, m, s.requests[m].current);
      if ms[n] == m {
        assert m !in ms[..n];
        FailOneOwn(p, s1, m, error, message, now);
      } else {
        assert m in ms ==> m in ms[..n];
        FailOneSame(p, s1, ms[n], error, message, now, m, s.requests[m].current);
      }
    }
  }

  lemma SoleKnown(s: State, m: Id, a: Id)
    requires Sole(s, m, a)
    ensures m in s.requests && a in s.attempts
  {
  }

  lemma FailOneSame(p: BatchPolicy, s: State, x: Id, error: U32, message: Bytes, now: int, m: Id, a: Id)
    requires Sole(s, m, a) && x != m
    ensures var s' := FailOne(p, s, x, error, message, now);
            && Sole(s', m, a) && m in s'.requests && a in s'.attempts && m in s.requests && a in s.attempts
            && s'.requests[m] == s.requests[m] && s'.attempts[a] == s.attempts[a]
  {
    hide FailOne, Sole;
    FailOneOther(p, s, x, error, message, now, m, a);
    SoleKnown(s, m, a);
    SoleKnown(FailOne(p, s, x, error, message, now), m, a);
  }

  predicate Revived(p: BatchPolicy, s: State, s': State, bid: Id, m: Id) {
    && bid in s.batches && m in s.requests && m in s'.requests && s.requests[m].current in s.attempts
    && (m in s.batches[bid].members ==> s'.requests[m].state == AfterFailure(p, s, m))
    && (m !in s.batches[bid].members ==> s'.requests[m] == s.requests[m])
  }

  /** When the executor of a sealed batch fails, every member, cancelled and otherwise
      finished ones included, becomes eligible again or failed, by its attempts alone;
      and no other request changes. */
  lemma FailureRevives(p: BatchPolicy, s: State, bid: Id, worker: Id, error: U32, message: Bytes, now: int, m: Id)
    requires bid in s.batches && s.batches[bid].state.Sealed? && m in s.requests
    requires Inv(p, s)
    ensures Revived(p, s, DispatchAndFail(p, s, bid, worker, error, message, now).0, bid, m)
  {
    hide Inv, Hand, Start, FailAll, Sole, Evolves;
    var boot := if worker in s.workers then s.workers[worker].boot else 0;
    var s1 := Hand(s, bid, worker, boot);
    HandGood(p, s, bid, worker, boot);
    HandRecord(s, bid, worker, boot, m);
    var s2 := Start(s1, bid);
    StartGood(p, s1, bid);
    StartRecord(s1, bid, m);
    InvStill(p, s, m);
    InvStill(p, s2, m);
    MembersDistinct(p, s2, bid);
    FailAllOn(p, s2, s2.batches[bid].members, error, message, now, m);
    SoleKnown(FailAll(p, s2, s2.batches[bid].members, error, message, now), m, s.requests[m].current);
  }

  lemma MembersDistinct(p: BatchPolicy, s: State, bid: Id)
    requires Inv(p, s) && bid in s.batches
    ensures NoDup(s.batches[bid].members)
  {
    hide WideInv, TrialInv, LedgerInv, Bounded, Queued, FormingExact, Ordered, Homes, Housing, NoDup;
  }

  lemma HandRecord(s: State, bid: Id, worker: Id, boot: Id, m: Id)
    requires bid in s.batches && s.batches[bid].state.Sealed? && m in s.requests
    ensures var s' := Hand(s, bid, worker, boot);
            && bid in s'.batches && s'.batches[bid].members == s.batches[bid].members && s'.batches[bid].state.Dispatched?
            && s'.attempts == s.attempts && m in s'.requests && s'.requests[m].current == s.requests[m].current
            && (m !in s.batches[bid].members ==> s'.requests[m] == s.requests[m])
  {
  }

  lemma StartRecord(s: State, bid: Id, m: Id)
    requires bid in s.batches && s.batches[bid].state.Dispatched? && m in s.requests
    ensures var s' := Start(s, bid);
            && bid in s'.batches && s'.batches[bid].members == s.batches[bid].members
            && s'.attempts == s.attempts && m in s'.requests && s'.requests[m].current == s.requests[m].current
            && (m !in s.batches[bid].members ==> s'.requests[m] == s.requests[m])
  {
  }
}
